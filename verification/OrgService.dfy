/** The organization service as it runs, on one store: each operation with its checks in order. */
module OrgService {
  import opened Prelude
  import opened OrgTables

  datatype Error =
    | TenancyDisabled | OrgNotFound | NotOrgMember | OrgForbidden | OrgRoleReserved | LastOwnerKept | InvalidOrgRole
    | MembershipLimit | InviteInvalid | InviteRevoked | InviteUsed | OrgCreateDisabled | InvalidSlug | StoreFailure

  datatype Result<+T> = Ok(value: T) | Err(error: Error)

  function Refusal(d: Denial): Error {
    match d
    case Forbidden => OrgForbidden
    case RoleReserved => OrgRoleReserved
    case LastOwner => LastOwnerKept
  }

  datatype Settings = Settings(enabled: bool, allowCreate: bool, maxMemberships: int, defaultRole: string, extraRoles: seq<string>)

  /** Active memberships of a user. */
  function Memberships(t: Tables, user: Id): set<(Id, Id)> {
    set k | k in t.members && k.1 == user && t.members[k].status == Active
  }

  predicate AtLimit(cfg: Settings, t: Tables, user: Id) {
    cfg.maxMemberships > 0 && |Memberships(t, user)| >= cfg.maxMemberships
  }

  /** Why a member change is refused, in the order the checks are made. */
  function ChangeRefused(t: Tables, org: Id, actor: Id, target: Id, next: string): Option<Error> {
    if org !in t.orgs then Some(OrgNotFound)
    else if !IsActive(t, org, actor) || !IsActive(t, org, target) then Some(NotOrgMember)
    else
      match MemberRoleDecision(t.members[(org, actor)].role, t.members[(org, target)].role, next, OwnerCount(t, org))
      case Some(d) => Some(Refusal(d))
      case None => None
  }

  /** Why an invitation cannot be accepted: revoked before used before expired, then the limit. */
  function AcceptRefused(cfg: Settings, t: Tables, inv: Option<Id>, user: Id, now: int): Option<Error> {
    if !cfg.enabled then Some(TenancyDisabled)
    else if inv.None? || inv.value !in t.invites then Some(InviteInvalid)
    else
      var i := t.invites[inv.value];
      if i.revoked then Some(InviteRevoked)
      else if i.accepted then Some(InviteUsed)
      else if now > i.expiresAt then Some(InviteInvalid)
      else if AtLimit(cfg, t, user) then Some(MembershipLimit)
      else None
  }

  // ----- what the operations come down to, on the rows -----

  /** The user is an active member of fewer organizations than the limit, if there is one. */
  ghost predicate BelowLimit(cfg: Settings, t: Tables, user: Id) {
    cfg.maxMemberships <= 0 || |set k | k in t.members && k.1 == user && t.members[k].status == Active| < cfg.maxMemberships
  }

  /** The invitation is there, neither revoked nor used nor past its last instant, and its organization exists. */
  ghost predicate MayAccept(cfg: Settings, t: Tables, inv: Id, user: Id, now: int) {
    && cfg.enabled && inv in t.invites && !t.invites[inv].revoked && !t.invites[inv].accepted && now <= t.invites[inv].expiresAt
    && t.invites[inv].org in t.orgs && BelowLimit(cfg, t, user)
  }

  /** The department and level of a membership are still there. */
  ghost predicate Exists(t: Tables, m: Membership) {
    (m.dept.Some? ==> m.dept.value in t.depts) && (m.level.Some? ==> m.level.value in t.levels)
  }

  /** The role an invitation is for: the one asked for, else the configured default, else member. */
  ghost function RoleFor(cfg: Settings, role: string): string {
    var asked, usual := Normalize(role), Normalize(cfg.defaultRole);
    if asked != "" then asked else if usual != "" then usual else "member"
  }

  /** The name is one of the configured roles, cleaned up, and of the permitted form. */
  ghost predicate Configured(cfg: Settings, name: string) {
    && (exists n :: n in cfg.extraRoles && Normalize(n) == name)
    && 2 <= |name| <= 50 && name[0] in "abcdefghijklmnopqrstuvwxyz"
    && forall i :: 0 <= i < |name| ==> name[i] in "abcdefghijklmnopqrstuvwxyz0123456789_"
  }

  /** Besides what there was, the organization has the three built-in roles and the configured ones. */
  ghost predicate GainsCatalog(cfg: Settings, org: Id, before: set<(Id, string)>, after: set<(Id, string)>) {
    forall o, name :: (o, name) in after <==>
      (o, name) in before || (o == org && (name in {"owner", "admin", "member"} || Configured(cfg, name)))
  }

  lemma ConfiguredSpelledOut(cfg: Settings, name: string)
    ensures name in ExtraRoles(cfg.extraRoles) <==> Configured(cfg, name)
  {
    RolePatternSpelledOut(name);
    hide RolePattern, Normalize;
  }

  lemma SeededRole(t: Tables, org: Id, names: seq<string>, o: Id, name: string)
    ensures (o, name) in SeedExtraRoles(SeedDefaultRoles(t, org), org, names).roles <==>
      (o, name) in t.roles || (o == org && (name == "owner" || name == "admin" || name == "member" || name in ExtraRoles(names)))
  {
    hide ExtraRoles;
  }

  lemma CatalogSpelledOut(t: Tables, org: Id, cfg: Settings)
    ensures GainsCatalog(cfg, org, t.roles, SeedExtraRoles(SeedDefaultRoles(t, org), org, cfg.extraRoles).roles)
  {
    hide ExtraRoles, Configured, SeedExtraRoles, SeedDefaultRoles;
    forall o: Id, name: string
      ensures (o, name) in SeedExtraRoles(SeedDefaultRoles(t, org), org, cfg.extraRoles).roles <==>
        (o, name) in t.roles || (o == org && (name in {"owner", "admin", "member"} || Configured(cfg, name)))
    {
      ConfiguredSpelledOut(cfg, name);
      SeededRole(t, org, cfg.extraRoles, o, name);
    }
  }

  type Members = map<(Id, Id), Membership>

  ghost predicate Belongs(m: Members, org: Id, user: Id) {
    (org, user) in m && m[(org, user)].status == Active
  }

  /** How many active members own the organization. */
  ghost function HowManyOwn(m: Members, org: Id): nat {
    |set k | k in m && k.0 == org && m[k].status == Active && Lower(m[k].role) == "owner"|
  }

  /** The actor may give the target the role, or remove it with the empty one. */
  ghost predicate MayChange(t: Tables, org: Id, actor: Id, target: Id, next: string) {
    && org in t.orgs && Belongs(t.members, org, actor) && Belongs(t.members, org, target)
    && var a, b := t.members[(org, actor)].role, t.members[(org, target)].role;
    && !Is(next, "owner") && (Is(b, "owner") ==> Is(a, "owner") && HowManyOwn(t.members, org) > 1)
    && (Is(a, "owner") || (Is(a, "admin") && !Is(b, "admin") && !Is(next, "admin")))
  }

  ghost predicate TakesLastOwner(t: Tables, org: Id, actor: Id, target: Id, next: string) {
    && org in t.orgs && Belongs(t.members, org, actor) && Belongs(t.members, org, target)
    && var a, b := t.members[(org, actor)].role, t.members[(org, target)].role;
    && (Is(a, "owner") || Is(a, "admin")) && !Is(next, "owner") && Is(b, "owner") && HowManyOwn(t.members, org) <= 1
  }

  lemma OwnersCounted(t: Tables, org: Id)
    ensures HowManyOwn(t.members, org) == OwnerCount(t, org)
  {
    var rows := set k | k in t.members && k.0 == org && t.members[k].status == Active && Lower(t.members[k].role) == "owner";
    assert rows == set k | k in t.members && k.0 == org && IsOwner(t, org, k.1) by {
      assert forall k :: k in t.members && k.0 == org ==> k == (org, k.1);
    }
    SameSize(rows, Owners(t, org), org);
  }

  lemma {:induction false} SameSize(rows: set<(Id, Id)>, users: set<Id>, org: Id)
    requires forall k :: k in rows ==> k.0 == org && k.1 in users
    requires forall u :: u in users ==> (org, u) in rows
    ensures |rows| == |users|
  {
    if rows != {} {
      var k :| k in rows;
      SameSize(rows - {k}, users - {k.1}, org);
    } else {
      assert users == {};
    }
  }

  lemma ChangeSpelledOut(t: Tables, org: Id, actor: Id, target: Id, next: string)
    ensures ChangeRefused(t, org, actor, target, next).None? <==> MayChange(t, org, actor, target, next)
    ensures ChangeRefused(t, org, actor, target, next) == Some(LastOwnerKept) <==> TakesLastOwner(t, org, actor, target, next)
    ensures ChangeRefused(t, org, actor, target, next) == Some(OrgNotFound) <==> org !in t.orgs
    ensures ChangeRefused(t, org, actor, target, next) == Some(OrgRoleReserved) <==> AsksForOwner(t, org, actor, target, next)
    ensures ChangeRefused(t, org, actor, target, next) == Some(NotOrgMember) <==>
      org in t.orgs && !(Belongs(t.members, org, actor) && Belongs(t.members, org, target))
  {
    OwnersCounted(t, org);
    if org in t.orgs && Belongs(t.members, org, actor) && Belongs(t.members, org, target) {
      var a, b, n := t.members[(org, actor)].role, t.members[(org, target)].role, OwnerCount(t, org);
      DecisionTable(a, b, next, n);
      RefusalTable(a, b, next, n);
      hide MemberRoleDecision, OwnerCount, HowManyOwn, Is;
      assert ChangeRefused(t, org, actor, target, next) ==
        (match MemberRoleDecision(a, b, next, n) case Some(d) => Some(Refusal(d)) case None => None);
    }
    hide MemberRoleDecision, OwnerCount, HowManyOwn, Is;
  }

  /** A change on tables is the decision, the look into the catalog, and the write. */
  lemma ChangeBySteps(t: Tables, org: Id, actor: Id, target: Id, role: string)
    requires org in t.orgs
    ensures ChangeRole(t, org, actor, target, role) ==
      if ChangeRefused(t, org, actor, target, Normalize(role)).Some? || Normalize(role) == "" || (org, Normalize(role)) !in t.roles then None
      else Some(UpdateRole(t, org, target, Normalize(role)))
    ensures ChangeRefused(t, org, actor, target, Normalize(role)).None? ==> Belongs(t.members, org, actor) && Belongs(t.members, org, target)
  {
    hide MemberRoleDecision, OwnerCount, Normalize;
  }

  /** Only owners and admins get as far as being told that the role is reserved. */
  ghost predicate AsksForOwner(t: Tables, org: Id, actor: Id, target: Id, next: string) {
    && org in t.orgs && Belongs(t.members, org, actor) && Belongs(t.members, org, target)
    && (Is(t.members[(org, actor)].role, "owner") || Is(t.members[(org, actor)].role, "admin")) && Is(next, "owner")
  }

  /** Whether the role is given normalized or not makes no difference. */
  lemma AskedEitherWay(t: Tables, org: Id, actor: Id, target: Id, role: string)
    ensures MayChange(t, org, actor, target, role) <==> MayChange(t, org, actor, target, Normalize(role))
    ensures TakesLastOwner(t, org, actor, target, role) <==> TakesLastOwner(t, org, actor, target, Normalize(role))
    ensures AsksForOwner(t, org, actor, target, role) <==> AsksForOwner(t, org, actor, target, Normalize(role))
  {
    NormalizeIsStable(role);
    assert forall name :: Is(role, name) <==> Is(Normalize(role), name);
    hide Is, Normalize, HowManyOwn, Belongs;
  }

  /** The membership an accepted invitation leaves: its role, its department and level as far as they exist
      in the organization, and what the member had before otherwise. */
  ghost function Joined(t: Tables, i: Invite, user: Id): Membership {
    Membership(i.role, Active,
               if i.dept.Some? && i.dept.value in t.depts && t.depts[i.dept.value] == i.org then i.dept
               else if (i.org, user) in t.members then t.members[(i.org, user)].dept else None,
               if i.level.Some? && i.level.value in t.levels && t.levels[i.level.value] == i.org then i.level
               else if (i.org, user) in t.members then t.members[(i.org, user)].level else None)
  }

  class Service {
    const cfg: Settings
    var orgs: map<Id, Organization>
    var roles: set<(Id, string)>
    var depts: map<Id, Id>
    var levels: map<Id, Id>
    var members: map<(Id, Id), Membership>
    var invites: map<Id, Invite>

    constructor (cfg: Settings)
      ensures this.cfg == cfg && View() == Tables(map[], {}, map[], map[], map[], map[])
    {
      this.cfg := cfg;
      orgs, roles, depts, levels, members, invites := map[], {}, map[], map[], map[], map[];
    }

    function View(): Tables
      reads this
    {
      Tables(orgs, roles, depts, levels, members, invites)
    }

    method RequireMember(org: Id, user: Id) returns (r: Result<Membership>)
      ensures r.Ok? <==> IsActive(View(), org, user)
      ensures r == if IsActive(View(), org, user) then Ok(members[(org, user)]) else Err(NotOrgMember)
    {
      if (org, user) !in members || members[(org, user)].status != Active {
        return Err(NotOrgMember);
      }
      return Ok(members[(org, user)]);
    }

    method HasOrgRole(org: Id, role: string) returns (has: bool)
      ensures has <==> Normalize(role) != "" && (org, Normalize(role)) in roles
    {
      var name := Normalize(role);
      has := name != "" && (org, name) in roles;
    }

    method CheckMembershipLimit(user: Id) returns (ok: bool)
      ensures ok <==> !AtLimit(cfg, View(), user)
      ensures ok <==> BelowLimit(cfg, View(), user)
    {
      if cfg.maxMemberships <= 0 {
        return true;
      }
      ok := |Memberships(View(), user)| < cfg.maxMemberships;
    }

    /** The reads behind a member change, then the decision on them. */
    method DecideChange(org: Id, actor: Id, target: Id, next: string) returns (refused: Option<Error>)
      ensures refused == ChangeRefused(View(), org, actor, target, next)
    {
      if org !in orgs {
        return Some(OrgNotFound);
      }
      var a := RequireMember(org, actor);
      if a.Err? {
        return Some(a.error);
      }
      var t := RequireMember(org, target);
      if t.Err? {
        return Some(t.error);
      }
      var decision := MemberRoleDecision(a.value.role, t.value.role, next, OwnerCount(View(), org));
      return if decision.Some? then Some(Refusal(decision.value)) else None;
    }

    /** Sets an active member's role, or says why not and changes nothing. An owner never disappears. */
    method ChangeMemberRole(org: Id, actor: Id, target: Id, role: string) returns (r: Result<Membership>)
      modifies this`members
      ensures r.Ok? <==> org in orgs && ChangeRole(old(View()), org, actor, target, role).Some?
      ensures r.Ok? ==> Some(View()) == ChangeRole(old(View()), org, actor, target, role)
      ensures r.Ok? ==> r.value == members[(org, target)] && r.value.role == Normalize(role) && r.value.status == Active
      ensures r.Err? ==> View() == old(View())
      ensures ChangeRefused(old(View()), org, actor, target, Normalize(role)).Some? ==>
        r == Err(ChangeRefused(old(View()), org, actor, target, Normalize(role)).value)
      ensures OwnerCount(old(View()), org) >= 1 ==> OwnerCount(View(), org) >= 1
      // on the rows alone
      ensures r.Ok? <==> MayChange(old(View()), org, actor, target, role) && Normalize(role) != "" && (org, Normalize(role)) in roles
      ensures r.Ok? ==> members == old(members)[(org, target) := old(members)[(org, target)].(role := Normalize(role))]
      ensures r == Err(OrgNotFound) <==> org !in orgs
      ensures r == Err(NotOrgMember) <==> org in orgs && !(Belongs(old(members), org, actor) && Belongs(old(members), org, target))
      ensures r == Err(LastOwnerKept) <==> TakesLastOwner(old(View()), org, actor, target, role)
      ensures r == Err(OrgRoleReserved) <==> AsksForOwner(old(View()), org, actor, target, role)
    {
      ChangeSpelledOut(View(), org, actor, target, Normalize(role));
      AskedEitherWay(View(), org, actor, target, role);
      NormalizeIsStable(role);
      if OwnerCount(View(), org) >= 1 {
        ChangeKeepsAnOwner(View(), org, actor, target, role);
      }
      if org in orgs {
        ChangeBySteps(View(), org, actor, target, role);
      }
      hide OwnerCount, Normalize, ChangeRole, ChangeRefused, MayChange, TakesLastOwner, AsksForOwner;
      var next := Normalize(role);
      var refused := DecideChange(org, actor, target, next);
      if refused.Some? {
        return Err(refused.value);
      }
      var known := HasOrgRole(org, next);
      if !known {
        return Err(InvalidOrgRole);
      }
      members := members[(org, target) := members[(org, target)].(role := next)];
      return Ok(members[(org, target)]);
    }

    /** Ends an active membership; its row stays. An owner never disappears. */
    method RemoveMember(org: Id, actor: Id, target: Id) returns (r: Result<()>)
      modifies this`members
      ensures r.Ok? <==> org in orgs && OrgTables.RemoveMember(old(View()), org, actor, target).Some?
      ensures r.Ok? ==> Some(View()) == OrgTables.RemoveMember(old(View()), org, actor, target)
      ensures r.Ok? ==> (org, target) in members && members[(org, target)] == old(members)[(org, target)].(status := Removed)
      ensures r.Err? ==> View() == old(View()) && Some(r.error) == ChangeRefused(old(View()), org, actor, target, "")
      ensures OwnerCount(old(View()), org) >= 1 ==> OwnerCount(View(), org) >= 1
      // on the rows alone
      ensures r.Ok? <==> MayChange(old(View()), org, actor, target, "")
      ensures r.Ok? ==> members == old(members)[(org, target) := old(members)[(org, target)].(status := Removed)]
      ensures r == Err(OrgNotFound) <==> org !in orgs
      ensures r == Err(NotOrgMember) <==> org in orgs && !(Belongs(old(members), org, actor) && Belongs(old(members), org, target))
      ensures r == Err(LastOwnerKept) <==> TakesLastOwner(old(View()), org, actor, target, "")
    {
      ChangeSpelledOut(View(), org, actor, target, "");
      if OwnerCount(View(), org) >= 1 {
        RemovalKeepsAnOwner(View(), org, actor, target);
      }
      hide OwnerCount, MemberRoleDecision;
      var refused := DecideChange(org, actor, target, "");
      if refused.Some? {
        return Err(refused.value);
      }
      members := members[(org, target) := members[(org, target)].(status := Removed)];
      return Ok(());
    }

    /** The upsert: role and status replaced, department and level only when given. */
    method UpsertMembership(org: Id, user: Id, role: string, dept: Option<Id>, level: Option<Id>, fails: bool) returns (ok: bool)
      modifies this`members
      ensures ok <==> !fails && UpsertMember(old(View()), org, user, role, dept, level).Some?
      ensures ok ==> Some(View()) == UpsertMember(old(View()), org, user, role, dept, level)
      ensures !ok ==> members == old(members)
    {
      if fails || org !in orgs || (dept.Some? && dept.value !in depts) || (level.Some? && level.value !in levels) {
        return false;
      }
      if (org, user) in members {
        var m := members[(org, user)];
        members := members[(org, user) := Membership(role, Active, if dept.Some? then dept else m.dept, if level.Some? then level else m.level)];
      } else {
        members := members[(org, user) := Membership(role, Active, dept, level)];
      }
      return true;
    }

    /** Accepts the invitation the token belongs to (`inv`, if any). The membership comes first: if the mark
        then fails, the person is a member and the invitation is still pending. */
    method AcceptInvite(inv: Option<Id>, user: Id, now: int, upsertFails: bool, markFails: bool) returns (r: Result<Id>)
      modifies this`members, this`invites
      ensures AcceptRefused(cfg, old(View()), inv, user, now).Some? ==>
        r == Err(AcceptRefused(cfg, old(View()), inv, user, now).value) && View() == old(View())
      ensures r.Ok? ==>
        && inv.Some? && Some(View()) == OrgTables.AcceptInvite(old(View()), inv.value, user, now)
        && r.value == old(invites)[inv.value].org && IsActive(View(), r.value, user)
      ensures AcceptRefused(cfg, old(View()), inv, user, now).None? && !upsertFails && !markFails ==>
        (r.Ok? <==> OrgTables.AcceptInvite(old(View()), inv.value, user, now).Some?)
      ensures r.Err? ==> invites == old(invites)
      // on the rows and answers alone
      ensures r.Ok? <==> inv.Some? && MayAccept(cfg, old(View()), inv.value, user, now) && !upsertFails && !markFails
      ensures r.Ok? ==>
        var i := old(invites)[inv.value];
        && members == old(members)[(i.org, user) := Joined(old(View()), i, user)]
        && invites == old(invites)[inv.value := i.(accepted := true)]
      ensures r.Err? && members != old(members) ==>
        markFails && inv.Some? && inv.value in old(invites) && IsActive(View(), old(invites)[inv.value].org, user)
    {
      if !cfg.enabled {
        return Err(TenancyDisabled);
      }
      if inv.None? || inv.value !in invites {
        return Err(InviteInvalid);
      }
      var i := invites[inv.value];
      if i.revoked {
        return Err(InviteRevoked);
      }
      if i.accepted {
        return Err(InviteUsed);
      }
      if now > i.expiresAt {
        return Err(InviteInvalid);
      }
      var below := CheckMembershipLimit(user);
      if !below {
        return Err(MembershipLimit);
      }
      var dept := Within(depts, i.dept, i.org);
      var level := Within(levels, i.level, i.org);
      var joined := UpsertMembership(i.org, user, i.role, dept, level, upsertFails);
      if !joined {
        return Err(StoreFailure);
      }
      if markFails {
        return Err(StoreFailure);
      }
      invites := invites[inv.value := i.(accepted := true)];
      return Ok(i.org);
    }

    /** Adds or re-activates a member. The limit is checked only when there is no row at all, not even a
        removed one, and an existing row keeps its department and level. */
    method AddMember(org: Id, user: Id, role: string, fails: bool) returns (r: Result<Membership>)
      modifies this`members
      ensures r.Ok? <==>
        && cfg.enabled && org in orgs && !fails
        && Normalize(role) != "" && (org, Normalize(role)) in roles
        && ((org, user) in old(members) || !AtLimit(cfg, old(View()), user))
        && UpsertMember(old(View()), org, user, Normalize(role), KeptDept(old(members), org, user), KeptLevel(old(members), org, user)).Some?
      ensures r.Ok? ==> (org, user) in members && r.value == members[(org, user)]
      ensures r.Ok? ==>
        members == old(members)[(org, user) := Membership(Normalize(role), Active, KeptDept(old(members), org, user), KeptLevel(old(members), org, user))]
      ensures r.Err? ==> members == old(members)
      ensures r == Err(MembershipLimit) ==> (org, user) !in old(members) && AtLimit(cfg, old(View()), user)
      // on the rows alone
      ensures r.Ok? <==>
        && cfg.enabled && org in orgs && !fails && Normalize(role) != "" && (org, Normalize(role)) in roles
        && ((org, user) in old(members) || BelowLimit(cfg, old(View()), user))
        && ((org, user) in old(members) ==> Exists(old(View()), old(members)[(org, user)]))
      ensures r.Ok? ==>
        members == old(members)[(org, user) :=
          if (org, user) in old(members) then old(members)[(org, user)].(role := Normalize(role), status := Active)
          else Membership(Normalize(role), Active, None, None)]
    {
      hide Normalize, AtLimit;
      if !cfg.enabled {
        return Err(TenancyDisabled);
      }
      NormalizeIsStable(role);
      assert Normalize(Normalize(role)) == Normalize(role);
      var known := HasOrgRole(org, role);
      if !known {
        return Err(InvalidOrgRole);
      }
      if (org, user) !in members {
        var below := CheckMembershipLimit(user);
        if !below {
          return Err(MembershipLimit);
        }
      }
      var dept := KeptDept(members, org, user);
      var level := KeptLevel(members, org, user);
      var stored := UpsertMembership(org, user, Normalize(role), dept, level, fails);
      if !stored {
        return Err(StoreFailure);
      }
      return Ok(members[(org, user)]);
    }

    /** Stores an invitation for a role of the catalog other than owner; with an actor, only for an owner
        or admin. */
    method Invite(org: Id, actor: Option<Id>, role: string, id: Id, expiresAt: int, dept: Option<Id>, level: Option<Id>, fails: bool)
      returns (r: Result<Id>)
      modifies this`invites
      ensures r.Ok? <==>
        !fails && id !in old(invites) && Invitable(old(View()), org, actor, InviteRole(cfg.defaultRole, role))
      ensures r.Ok? ==>
        r.value == id && invites == old(invites)[id := OrgTables.Invite(org, InviteRole(cfg.defaultRole, role), expiresAt, false, false, dept, level)]
      ensures r.Err? ==> invites == old(invites)
      // on the rows alone
      ensures r.Ok? <==>
        && org in orgs && !fails && id !in old(invites)
        && (actor.Some? ==> Belongs(members, org, actor.value) && Lower(members[(org, actor.value)].role) in {"owner", "admin"})
        && RoleFor(cfg, role) != "owner" && (org, RoleFor(cfg, role)) in roles
      ensures r.Ok? ==> invites == old(invites)[id := OrgTables.Invite(org, RoleFor(cfg, role), expiresAt, false, false, dept, level)]
      ensures r == Err(InvalidOrgRole) ==>
        InviteRole(cfg.defaultRole, role) == "owner" || (org, InviteRole(cfg.defaultRole, role)) !in roles
    {
      hide Normalize;
      if org !in orgs {
        return Err(OrgNotFound);
      }
      if actor.Some? {
        var a := RequireMember(org, actor.value);
        if a.Err? {
          return Err(a.error);
        }
        if Lower(a.value.role) != "owner" && Lower(a.value.role) != "admin" {
          return Err(OrgForbidden);
        }
      }
      var invited := InviteRole(cfg.defaultRole, role);
      if invited == "owner" || (org, invited) !in roles {
        return Err(InvalidOrgRole);
      }
      if fails || id in invites {
        return Err(StoreFailure);
      }
      invites := invites[id := OrgTables.Invite(org, invited, expiresAt, false, false, dept, level)];
      return Ok(id);
    }

    /** Revokes the pending invitation with the id, for an owner or admin of the organization. */
    method RevokeInvite(org: Id, actor: Id, inv: Id, fails: bool) returns (r: Result<()>)
      modifies this`invites
      ensures r.Ok? <==>
        org in orgs && Belongs(members, org, actor) && Lower(members[(org, actor)].role) in {"owner", "admin"} && !fails
      ensures r == Err(OrgForbidden) <==>
        org in orgs && Belongs(members, org, actor) && Lower(members[(org, actor)].role) !in {"owner", "admin"}
      ensures View() == if r.Ok? then RevokeRow(old(View()), inv) else old(View())
      ensures invites.Keys == old(invites).Keys
      ensures forall i :: i in invites ==>
        invites[i].revoked == (old(invites)[i].revoked || (r.Ok? && i == inv && !old(invites)[i].accepted))
    {
      if org !in orgs {
        return Err(OrgNotFound);
      }
      var a := RequireMember(org, actor);
      if a.Err? {
        return Err(a.error);
      }
      if Lower(a.value.role) != "owner" && Lower(a.value.role) != "admin" {
        return Err(OrgForbidden);
      }
      if fails {
        return Err(StoreFailure);
      }
      if inv in invites && !invites[inv].accepted && !invites[inv].revoked {
        invites := invites[inv := invites[inv].(revoked := true)];
      }
      return Ok(());
    }

    method InsertOrganization(org: Id, o: Organization) returns (ok: bool)
      modifies this`orgs
      ensures ok == InsertOrg(old(View()), org, o).Some?
      ensures Some(View()) == if ok then InsertOrg(old(View()), org, o) else Some(old(View()))
    {
      if org in orgs || exists x :: x in orgs && orgs[x].slug == o.slug {
        return false;
      }
      orgs := orgs[org := o];
      return true;
    }

    /** The built-in roles, then the configured ones. */
    method SeedCatalog(org: Id, reach: nat) returns (ok: bool)
      modifies this`roles
      ensures ok == (reach >= 2)
      ensures View() ==
        if reach == 0 then old(View())
        else if reach == 1 then SeedDefaultRoles(old(View()), org)
        else SeedExtraRoles(SeedDefaultRoles(old(View()), org), org, cfg.extraRoles)
    {
      hide ExtraRoles;
      if reach == 0 {
        return false;
      }
      roles := roles + {(org, "owner"), (org, "admin"), (org, "member")};
      if reach == 1 {
        return false;
      }
      roles := roles + set n | n in ExtraRoles(cfg.extraRoles) :: (org, n);
      return true;
    }

    /** Creates an organization with its catalog and its owner. The statements are not undone: `reach` is
        how many of the four took effect before one failed. */
    method Create(org: Id, user: Id, slug: string, reach: nat) returns (r: Result<Id>)
      modifies this`orgs, this`roles, this`members
      ensures r.Ok? <==>
        && cfg.enabled && cfg.allowCreate && !AtLimit(cfg, old(View()), user) && reach >= 4
        && InsertOrg(old(View()), org, Organization(slug, user)).Some?
      ensures cfg.enabled && cfg.allowCreate && !AtLimit(cfg, old(View()), user) ==>
        View() == CreateOrg(old(View()), org, user, slug, cfg.extraRoles, reach)
      ensures !(cfg.enabled && cfg.allowCreate && !AtLimit(cfg, old(View()), user)) ==> View() == old(View())
      ensures r.Ok? ==> r.value == org && IsOwner(View(), org, user)
      // on the rows alone
      ensures r.Ok? <==>
        && cfg.enabled && cfg.allowCreate && BelowLimit(cfg, old(View()), user) && reach >= 4
        && org !in old(orgs) && forall o :: o in old(orgs) ==> old(orgs)[o].slug != slug
      ensures r.Ok? ==> orgs == old(orgs)[org := Organization(slug, user)]
      ensures r.Ok? ==> GainsCatalog(cfg, org, old(roles), roles)
      ensures r.Ok? && (org, user) !in old(members) ==>
        members == old(members)[(org, user) := Membership("owner", Active, None, None)]
    {
      hide ExtraRoles, AtLimit, SeedDefaultRoles, SeedExtraRoles, Lower;
      SeedingKeeps(View(), org, cfg.extraRoles);
      if !cfg.enabled {
        return Err(TenancyDisabled);
      }
      if !cfg.allowCreate {
        return Err(OrgCreateDisabled);
      }
      var below := CheckMembershipLimit(user);
      if !below {
        return Err(MembershipLimit);
      }
      if reach == 0 {
        return Err(StoreFailure);
      }
      var inserted := InsertOrganization(org, Organization(slug, user));
      if !inserted {
        return Err(InvalidSlug);
      }
      CatalogSpelledOut(View(), org, cfg);
      hide GainsCatalog;
      var seeded := SeedCatalog(org, reach - 1);
      if !seeded || reach == 3 {
        return Err(StoreFailure);
      }
      var owned := UpsertMembership(org, user, "owner", None, None, false);
      FoldedOwner();
      return Ok(org);
    }
  }

  lemma FoldedOwner()
    ensures Lower("owner") == "owner"
  {
  }
}
