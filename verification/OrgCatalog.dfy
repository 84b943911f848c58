/** Roles, departments and levels named by memberships and invitations, with every operation of the
    organization service interleaved statement by statement. */
module OrgCatalog {
  import opened Prelude
  import opened OrgTables
  import opened Runs

  /** An operation between two of its statements, with what it has read. */
  datatype Proc =
    /** `Create` or `Ensure` once the organization row exists; `owner` is added last, if given. */
    | Seeding(org: Id, names: seq<string>, owner: Option<Id>, step: nat)
    | Sending(invite: Invite, checked: bool)
    | Accepting(inv: Id, read: Invite, user: Id, stage: AcceptStage)
    | Changing(org: Id, target: Id, role: string, checked: bool)
    | Adding(org: Id, user: Id, role: string, checked: bool)
    | AddingTo(org: Id, user: Id, role: string, dept: Option<Id>, level: Option<Id>)

  /** `deptOf` and `levelOf` remember every department and level ever created; ids are not reused. */
  datatype World = World(t: Tables, procs: map<nat, Proc>, deptOf: map<Id, Id>, levelOf: map<Id, Id>)

  datatype Action =
    | InsertOrgRow(pid: nat, org: Id, slug: string, user: Id, names: seq<string>, owner: Option<Id>)
    | Reseed(pid: nat, org: Id, names: seq<string>, owner: Option<Id>)
    | BeginSend(pid: nat, invite: Invite)
    | BeginAccept(pid: nat, inv: Id, user: Id, now: int)
    | BeginChange(pid: nat, org: Id, target: Id, role: string)
    | BeginAdd(pid: nat, org: Id, user: Id, role: string)
    /** The next statement of an operation; `id` is the id drawn for a new row. */
    | Continue(pid: nat, fails: bool, id: Id)
    | Abandon(pid: nat)
    | AddRole(org: Id, name: string)
    | AddDept(org: Id, id: Id)
    | AddLevel(org: Id, id: Id)
    | DropDept(org: Id, id: Id)
    | DropLevel(org: Id, id: Id)
    | RevokeInvite(inv: Id)
    | RemoveRowOf(org: Id, user: Id)

  function End(w: World, pid: nat): World {
    w.(procs := w.procs - {pid})
  }

  function Goto(w: World, pid: nat, p: Proc): World {
    w.(procs := w.procs[pid := p])
  }

  /** The upsert, then the next state of the operation; it ends when a foreign key fails. */
  function Upsert(w: World, pid: nat, org: Id, user: Id, role: string, dept: Option<Id>, level: Option<Id>, next: Option<Proc>): World {
    match UpsertMember(w.t, org, user, role, dept, level)
    case None => End(w, pid)
    case Some(t) => if next.None? then End(w.(t := t), pid) else Goto(w.(t := t), pid, next.value)
  }

  function StepSeeding(w: World, pid: nat, p: Proc): World
    requires p.Seeding?
  {
    if p.step == 0 then Goto(w.(t := SeedDefaultRoles(w.t, p.org)), pid, p.(step := 1))
    else if p.step == 1 then Goto(w.(t := SeedExtraRoles(w.t, p.org, p.names)), pid, p.(step := 2))
    else if p.owner.None? then End(w, pid)
    else Upsert(w, pid, p.org, p.owner.value, "owner", None, None, None)
  }

  function StepAccepting(w: World, pid: nat, p: Proc): World
    requires p.Accepting?
  {
    match p.stage
    case CheckDept => Goto(w, pid, p.(stage := CheckLevel(Within(w.t.depts, p.read.dept, p.read.org))))
    case CheckLevel(d) => Goto(w, pid, p.(stage := Join(d, Within(w.t.levels, p.read.level, p.read.org))))
    case Join(d, l) => Upsert(w, pid, p.read.org, p.user, p.read.role, d, l, Some(p.(stage := Mark)))
    case Mark => End(match AcceptRow(w.t, p.inv) case None => w case Some(t) => w.(t := t), pid)
  }

  function DoContinue(w: World, pid: nat, fails: bool, id: Id): World {
    if pid !in w.procs then w
    else if fails then End(w, pid)
    else
      var p := w.procs[pid];
      match p
      case Seeding(_, _, _, _) => StepSeeding(w, pid, p)
      case Accepting(_, _, _, _) => StepAccepting(w, pid, p)
      case Sending(i, checked) =>
        if !checked then
          if (i.org, i.role) in w.t.roles && i.role != "owner" then Goto(w, pid, Sending(i, true)) else End(w, pid)
        else End(if id in w.t.invites then w else w.(t := w.t.(invites := w.t.invites[id := i])), pid)
      case Changing(org, target, role, checked) =>
        if !checked then if role != "" && (org, role) in w.t.roles then Goto(w, pid, Changing(org, target, role, true)) else End(w, pid)
        else End(w.(t := UpdateRole(w.t, org, target, role)), pid)
      case Adding(org, user, role, checked) =>
        if !checked then if role != "" && (org, role) in w.t.roles then Goto(w, pid, Adding(org, user, role, true)) else End(w, pid)
        else if (org, user) in w.t.members then
          Goto(w, pid, AddingTo(org, user, role, w.t.members[(org, user)].dept, w.t.members[(org, user)].level))
        else Goto(w, pid, AddingTo(org, user, role, None, None))
      case AddingTo(org, user, role, dept, level) => Upsert(w, pid, org, user, role, dept, level, None)
  }

  /** An invitation request as the service stores it: a normalized role, still pending. */
  predicate Wellformed(t: Tables, i: Invite) {
    Normalized(i.role) && !i.accepted && !i.revoked && i.org in t.orgs
  }

  function Step(w: World, a: Action): World {
    match a
    case InsertOrgRow(pid, org, slug, user, names, owner) =>
      (match InsertOrg(w.t, org, Organization(slug, user))
       case None => w
       case Some(t) => if pid in w.procs then w else Goto(w.(t := t), pid, Seeding(org, names, owner, 0)))
    case Reseed(pid, org, names, owner) =>
      if pid in w.procs || org !in w.t.orgs then w else Goto(w, pid, Seeding(org, names, owner, 0))
    case BeginSend(pid, i) => if pid in w.procs || !Wellformed(w.t, i) then w else Goto(w, pid, Sending(i, false))
    case BeginAccept(pid, inv, user, now) =>
      if pid in w.procs || !Acceptable(w.t, inv, now) then w else Goto(w, pid, Accepting(inv, w.t.invites[inv], user, CheckDept))
    case BeginChange(pid, org, target, role) =>
      if pid in w.procs then w else Goto(w, pid, Changing(org, target, Normalize(role), false))
    case BeginAdd(pid, org, user, role) =>
      if pid in w.procs then w else Goto(w, pid, Adding(org, user, Normalize(role), false))
    case Continue(pid, fails, id) => DoContinue(w, pid, fails, id)
    case Abandon(pid) => End(w, pid)
    case AddRole(org, name) => w.(t := CreateRole(w.t, org, name))
    case AddDept(org, id) =>
      if id in w.deptOf then w else w.(t := w.t.(depts := w.t.depts[id := org]), deptOf := w.deptOf[id := org])
    case AddLevel(org, id) =>
      if id in w.levelOf then w else w.(t := w.t.(levels := w.t.levels[id := org]), levelOf := w.levelOf[id := org])
    case DropDept(org, id) => w.(t := DeleteDept(w.t, org, id))
    case DropLevel(org, id) => w.(t := DeleteLevel(w.t, org, id))
    case RevokeInvite(inv) => w.(t := RevokeRow(w.t, inv))
    case RemoveRowOf(org, user) => w.(t := RemoveRow(w.t, org, user))
  }

  const START := World(Tables(map[], {}, map[], map[], map[], map[]), map[], map[], map[])

  function Run(run: seq<Action>): World {
    After(Step, START, run)
  }

  /** Carrying out `run` from the start leads to `w`. */
  ghost predicate Reached(run: seq<Action>, w: World) {
    Runs.Reached(Step, START, run, w)
  }

  lemma ReachedIsRun(run: seq<Action>, w: World)
    ensures Reached(run, w) <==> w == Run(run)
  {
    hide Step;
    ReachedIsAfter(Step, START, run, w);
  }

  // ----- invariants -----

  ghost predicate RoleIn(roles: set<(Id, string)>, org: Id, role: string) {
    Normalized(role) && (org, role) in roles
  }

  /** The id, when given, was created for the organization. */
  ghost predicate MadeFor(owner: map<Id, Id>, id: Option<Id>, org: Id) {
    id.Some? ==> id.value in owner && owner[id.value] == org
  }

  ghost predicate RowGood(roles: set<(Id, string)>, depts: map<Id, Id>, levels: map<Id, Id>, org: Id, m: Membership) {
    RoleIn(roles, org, m.role) && MadeFor(depts, m.dept, org) && MadeFor(levels, m.level, org)
  }

  ghost predicate ProcGood(w: World, p: Proc) {
    match p
    case Seeding(org, _, _, step) => step >= 1 ==> RoleIn(w.t.roles, org, "owner")
    case Sending(i, checked) => Normalized(i.role) && (checked ==> RoleIn(w.t.roles, i.org, i.role))
    case Accepting(_, read, _, stage) =>
      && RoleIn(w.t.roles, read.org, read.role)
      && (stage.CheckLevel? || stage.Join? ==> MadeFor(w.deptOf, stage.dept, read.org))
      && (stage.Join? ==> MadeFor(w.levelOf, stage.level, read.org))
    case Changing(org, _, role, checked) => Normalized(role) && (checked ==> RoleIn(w.t.roles, org, role))
    case Adding(org, _, role, checked) => Normalized(role) && (checked ==> RoleIn(w.t.roles, org, role))
    case AddingTo(org, _, role, dept, level) =>
      RoleIn(w.t.roles, org, role) && MadeFor(w.deptOf, dept, org) && MadeFor(w.levelOf, level, org)
  }

  ghost predicate Ids(w: World) {
    && (forall d :: d in w.t.depts ==> d in w.deptOf && w.deptOf[d] == w.t.depts[d])
    && (forall l :: l in w.t.levels ==> l in w.levelOf && w.levelOf[l] == w.t.levels[l])
  }

  /** Every membership and every invitation names a normalized role of its own organization's catalog, and
      every department and level in use belongs to that organization. */
  ghost predicate Integrity(w: World) {
    && (forall k :: k in w.t.members ==> RowGood(w.t.roles, w.t.depts, w.t.levels, k.0, w.t.members[k]))
    && (forall i :: i in w.t.invites ==> RoleIn(w.t.roles, w.t.invites[i].org, w.t.invites[i].role))
  }

  ghost predicate ProcsGood(w: World) {
    forall p :: p in w.procs ==> ProcGood(w, w.procs[p])
  }

  ghost predicate Inv(w: World) {
    Ids(w) && Integrity(w) && ProcsGood(w)
  }

  /** Catalogs only grow, and so does what is known about ids. */
  ghost predicate Grows(w: World, w': World) {
    && w.t.roles <= w'.t.roles
    && (forall d :: d in w.deptOf ==> d in w'.deptOf && w'.deptOf[d] == w.deptOf[d])
    && (forall l :: l in w.levelOf ==> l in w'.levelOf && w'.levelOf[l] == w.levelOf[l])
  }

  lemma ProcLasts(w: World, w': World, p: Proc)
    requires ProcGood(w, p) && Grows(w, w')
    ensures ProcGood(w', p)
  {
    hide Normalize;
  }

  /** Processes other than `pid` stay, and `pid`, if it is still there, is good. */
  lemma ProcsLast(w: World, w': World, pid: nat)
    requires ProcsGood(w) && Grows(w, w')
    requires forall p :: p in w'.procs && p != pid ==> p in w.procs && w'.procs[p] == w.procs[p]
    requires pid in w'.procs ==> (pid in w.procs && w'.procs[pid] == w.procs[pid]) || ProcGood(w', w'.procs[pid])
    ensures ProcsGood(w')
  {
    hide Grows, ProcGood;
    forall p | p in w'.procs ensures ProcGood(w', w'.procs[p]) {
      if p in w.procs && w'.procs[p] == w.procs[p] {
        ProcLasts(w, w', w.procs[p]);
      }
    }
  }

  /** Rows that stay good under growing catalogs and unchanged departments and levels. */
  lemma IntegrityLasts(w: World, w': World)
    requires Integrity(w) && Grows(w, w') && w'.t.members == w.t.members && w'.t.invites == w.t.invites
    requires forall d :: d in w.t.depts ==> d in w'.t.depts && w'.t.depts[d] == w.t.depts[d]
    requires forall l :: l in w.t.levels ==> l in w'.t.levels && w'.t.levels[l] == w.t.levels[l]
    ensures Integrity(w')
  {
    hide Normalize;
  }

  /** The row an upsert leaves is good: given ids pass the foreign key, kept ids were good before. */
  lemma UpsertedIsGood(w: World, org: Id, user: Id, role: string, dept: Option<Id>, level: Option<Id>)
    requires Ids(w) && Integrity(w) && RoleIn(w.t.roles, org, role)
    requires MadeFor(w.deptOf, dept, org) && MadeFor(w.levelOf, level, org)
    requires UpsertMember(w.t, org, user, role, dept, level).Some?
    ensures Integrity(w.(t := UpsertMember(w.t, org, user, role, dept, level).value))
  {
    UpsertedRow(w, org, user, role, dept, level);
    hide RowGood, RoleIn, MadeFor, Coalesce;
  }

  lemma UpsertedRow(w: World, org: Id, user: Id, role: string, dept: Option<Id>, level: Option<Id>)
    requires Ids(w) && Integrity(w) && RoleIn(w.t.roles, org, role)
    requires MadeFor(w.deptOf, dept, org) && MadeFor(w.levelOf, level, org)
    requires UpsertMember(w.t, org, user, role, dept, level).Some?
    ensures var t' := UpsertMember(w.t, org, user, role, dept, level).value;
      (org, user) in t'.members && RowGood(w.t.roles, w.t.depts, w.t.levels, org, t'.members[(org, user)])
  {
    hide RoleIn;
    if (org, user) in w.t.members {
      assert RowGood(w.t.roles, w.t.depts, w.t.levels, org, w.t.members[(org, user)]);
    }
  }

  lemma UpsertKeepsInv(w: World, pid: nat, org: Id, user: Id, role: string, dept: Option<Id>, level: Option<Id>, next: Option<Proc>)
    requires Inv(w) && RoleIn(w.t.roles, org, role) && MadeFor(w.deptOf, dept, org) && MadeFor(w.levelOf, level, org)
    requires next.Some? ==> ProcGood(w, next.value)
    ensures Inv(Upsert(w, pid, org, user, role, dept, level, next))
  {
    hide RoleIn, MadeFor, RowGood, ProcGood;
    var w' := Upsert(w, pid, org, user, role, dept, level, next);
    if UpsertMember(w.t, org, user, role, dept, level).Some? {
      UpsertedIsGood(w, org, user, role, dept, level);
      var w1 := w.(t := UpsertMember(w.t, org, user, role, dept, level).value);
      IntegrityLasts(w1, w');
      if next.Some? {
        ProcLasts(w, w', next.value);
      }
    } else {
      IntegrityLasts(w, w');
    }
    ProcsLast(w, w', pid);
  }

  // ----- steps -----

  lemma OwnerIsNormalized()
    ensures Normalized("owner")
  {
    assert Lower("owner") == "owner";
    assert Trim("owner") == "owner";
  }

  lemma SeedsGrow(t: Tables, org: Id, names: seq<string>)
    ensures t.roles + {(org, "owner")} <= SeedDefaultRoles(t, org).roles
    ensures SeedDefaultRoles(t, org) == t.(roles := SeedDefaultRoles(t, org).roles)
    ensures t.roles <= SeedExtraRoles(t, org, names).roles
    ensures SeedExtraRoles(t, org, names) == t.(roles := SeedExtraRoles(t, org, names).roles)
  {
    hide ExtraRoles;
  }

  /** A step that leaves every row as it is. */
  lemma QuietKeepsInv(w: World, w': World, pid: nat)
    requires Inv(w) && Ids(w') && Grows(w, w') && w'.t.members == w.t.members && w'.t.invites == w.t.invites
    requires forall d :: d in w.t.depts ==> d in w'.t.depts && w'.t.depts[d] == w.t.depts[d]
    requires forall l :: l in w.t.levels ==> l in w'.t.levels && w'.t.levels[l] == w.t.levels[l]
    requires forall p :: p in w'.procs && p != pid ==> p in w.procs && w'.procs[p] == w.procs[p]
    requires pid in w'.procs ==> (pid in w.procs && w'.procs[pid] == w.procs[pid]) || ProcGood(w', w'.procs[pid])
    ensures Inv(w')
  {
    hide ProcGood, RowGood, RoleIn, Grows;
    IntegrityLasts(w, w');
    ProcsLast(w, w', pid);
  }

  lemma SeedingKeepsInv(w: World, pid: nat, p: Proc)
    requires Inv(w) && ProcGood(w, p) && p.Seeding?
    ensures Inv(StepSeeding(w, pid, p))
  {
    OwnerIsNormalized();
    if p.step >= 2 && p.owner.Some? {
      UpsertKeepsInv(w, pid, p.org, p.owner.value, "owner", None, None, None);
    } else {
      SeedsGrow(w.t, p.org, p.names);
      hide RowGood, Integrity, ProcsGood, SeedDefaultRoles, SeedExtraRoles, Normalized;
      QuietKeepsInv(w, StepSeeding(w, pid, p), pid);
    }
  }

  lemma AcceptingKeepsInv(w: World, pid: nat, p: Proc)
    requires Inv(w) && ProcGood(w, p) && p.Accepting?
    ensures Inv(StepAccepting(w, pid, p))
  {
    hide RowGood, Integrity, ProcsGood, RoleIn, AcceptRow;
    match p.stage
    case Join(d, l) => UpsertKeepsInv(w, pid, p.read.org, p.user, p.read.role, d, l, Some(p.(stage := Mark)));
    case Mark => MarkKeepsInv(w, pid, p.inv);
    case _ => QuietKeepsInv(w, StepAccepting(w, pid, p), pid);
  }

  /** Marks on an invitation keep its organization and role. */
  lemma InvitesKeepInv(w: World, w': World, pid: nat)
    requires Inv(w) && w' == w.(t := w.t.(invites := w'.t.invites), procs := w'.procs)
    requires forall i :: i in w'.t.invites ==>
      RoleIn(w'.t.roles, w'.t.invites[i].org, w'.t.invites[i].role)
    requires forall p :: p in w'.procs ==> p in w.procs && w'.procs[p] == w.procs[p]
    ensures Inv(w')
  {
    hide RoleIn, ProcGood;
    ProcsLast(w, w', pid);
  }

  lemma MarkKeepsInv(w: World, pid: nat, inv: Id)
    requires Inv(w)
    ensures Inv(End(match AcceptRow(w.t, inv) case None => w case Some(t) => w.(t := t), pid))
  {
    hide RoleIn, ProcGood, RowGood, ProcsGood;
    InvitesKeepInv(w, End(match AcceptRow(w.t, inv) case None => w case Some(t) => w.(t := t), pid), pid);
  }

  /** A membership row rewritten with a good row. */
  lemma RewriteKeepsInv(w: World, w': World, pid: nat, k: (Id, Id), m: Membership)
    requires Inv(w) && w' == w.(t := w.t.(members := w.t.members[k := m]), procs := w'.procs)
    requires RowGood(w.t.roles, w.t.depts, w.t.levels, k.0, m)
    requires forall p :: p in w'.procs ==> p in w.procs && w'.procs[p] == w.procs[p]
    ensures Inv(w')
  {
    hide RoleIn, ProcGood, RowGood;
    ProcsLast(w, w', pid);
  }

  lemma ChangingKeepsInv(w: World, pid: nat, org: Id, target: Id, role: string)
    requires Inv(w) && RoleIn(w.t.roles, org, role)
    ensures Inv(End(w.(t := UpdateRole(w.t, org, target, role)), pid))
  {
    hide RoleIn, MadeFor, ProcGood, ProcsGood;
    var w' := End(w.(t := UpdateRole(w.t, org, target, role)), pid);
    if IsActive(w.t, org, target) {
      var m := w.t.members[(org, target)];
      assert RowGood(w.t.roles, w.t.depts, w.t.levels, org, m);
      RewriteKeepsInv(w, w', pid, (org, target), m.(role := role));
    } else {
      QuietKeepsInv(w, w', pid);
    }
  }

  lemma SendKeepsInv(w: World, pid: nat, i: Invite, id: Id)
    requires Inv(w) && RoleIn(w.t.roles, i.org, i.role)
    ensures Inv(End(if id in w.t.invites then w else w.(t := w.t.(invites := w.t.invites[id := i])), pid))
  {
    hide RoleIn, ProcGood, RowGood, ProcsGood;
    InvitesKeepInv(w, End(if id in w.t.invites then w else w.(t := w.t.(invites := w.t.invites[id := i])), pid), pid);
  }

  /** Reading the existing row: its department and level are those of the organization. */
  lemma ReadingKeepsInv(w: World, pid: nat, org: Id, user: Id, role: string)
    requires Inv(w) && RoleIn(w.t.roles, org, role)
    ensures Inv(Goto(w, pid, AddingTo(org, user, role, None, None)))
    ensures (org, user) in w.t.members ==>
      Inv(Goto(w, pid, AddingTo(org, user, role, w.t.members[(org, user)].dept, w.t.members[(org, user)].level)))
  {
    hide RoleIn, ProcsGood;
    QuietKeepsInv(w, Goto(w, pid, AddingTo(org, user, role, None, None)), pid);
    if (org, user) in w.t.members {
      var m := w.t.members[(org, user)];
      assert RowGood(w.t.roles, w.t.depts, w.t.levels, org, m);
      QuietKeepsInv(w, Goto(w, pid, AddingTo(org, user, role, m.dept, m.level)), pid);
    }
  }

  lemma CheckKeepsInv(w: World, pid: nat, p: Proc)
    requires Inv(w) && ProcGood(w, p)
    ensures Inv(Goto(w, pid, p)) && Inv(End(w, pid))
  {
    assert Grows(w, Goto(w, pid, p)) && Grows(w, End(w, pid));
    ProcLasts(w, Goto(w, pid, p), p);
    hide RowGood, ProcGood, ProcsGood, Integrity, RoleIn;
    QuietKeepsInv(w, Goto(w, pid, p), pid);
    QuietKeepsInv(w, End(w, pid), pid);
  }

  lemma ContinueKeepsInv(w: World, pid: nat, fails: bool, id: Id)
    requires Inv(w)
    ensures Inv(DoContinue(w, pid, fails, id))
  {
    if pid in w.procs {
      var p := w.procs[pid];
      assert ProcGood(w, p);
      hide Inv, RowGood, ProcsGood, Integrity, Normalized, Ids, MadeFor, End, Goto, Upsert, StepSeeding, StepAccepting;
      CheckKeepsInv(w, pid, p);
      if !fails {
        match p
        case Seeding(_, _, _, _) => SeedingKeepsInv(w, pid, p);
        case Accepting(_, _, _, _) => AcceptingKeepsInv(w, pid, p);
        case Sending(i, checked) =>
          if checked { SendKeepsInv(w, pid, i, id); }
          else if (i.org, i.role) in w.t.roles { CheckKeepsInv(w, pid, Sending(i, true)); }
        case Changing(org, target, role, checked) =>
          if checked { ChangingKeepsInv(w, pid, org, target, role); }
          else if (org, role) in w.t.roles { CheckKeepsInv(w, pid, Changing(org, target, role, true)); }
        case Adding(org, user, role, checked) =>
          if checked { ReadingKeepsInv(w, pid, org, user, role); }
          else if (org, role) in w.t.roles { CheckKeepsInv(w, pid, Adding(org, user, role, true)); }
        case AddingTo(org, user, role, dept, level) => UpsertKeepsInv(w, pid, org, user, role, dept, level, None);
      }
    }
  }

  lemma DropDeptClearsIt(t: Tables, org: Id, id: Id)
    ensures var t' := DeleteDept(t, org, id); var own := id in t.depts && t.depts[id] == org;
      && t'.depts == (if own then t.depts - {id} else t.depts) && t'.members.Keys == t.members.Keys
      && forall k :: k in t.members ==>
        t'.members[k] == if own && t.members[k].dept == Some(id) then t.members[k].(dept := None) else t.members[k]
  {
  }

  /** Deleting a department clears it wherever it is used, so no row is left pointing at it. */
  lemma DropDeptKeepsInv(w: World, org: Id, id: Id)
    requires Inv(w)
    ensures Inv(w.(t := DeleteDept(w.t, org, id)))
    // and nothing else changes: another organization cannot delete it, other departments stay where they are
    ensures var t' := DeleteDept(w.t, org, id); var own := id in w.t.depts && w.t.depts[id] == org;
      && t'.depts == (if own then w.t.depts - {id} else w.t.depts) && t'.members.Keys == w.t.members.Keys
      && forall k :: k in w.t.members ==>
        t'.members[k] == if own && w.t.members[k].dept == Some(id) then w.t.members[k].(dept := None) else w.t.members[k]
  {
    DropDeptClearsIt(w.t, org, id);
    DropDeptKeepsRows(w, org, id);
  }

  lemma DropDeptKeepsRows(w: World, org: Id, id: Id)
    requires Inv(w)
    ensures Inv(w.(t := DeleteDept(w.t, org, id)))
  {
    var w' := w.(t := DeleteDept(w.t, org, id));
    forall k | k in w'.t.members ensures RowGood(w'.t.roles, w'.t.depts, w'.t.levels, k.0, w'.t.members[k]) {
      assert RowGood(w.t.roles, w.t.depts, w.t.levels, k.0, w.t.members[k]);
    }
    hide RowGood, RoleIn, ProcGood;
    ProcsLast(w, w', 0);
  }

  lemma DropLevelKeepsInv(w: World, org: Id, id: Id)
    requires Inv(w)
    ensures Inv(w.(t := DeleteLevel(w.t, org, id)))
  {
    var w' := w.(t := DeleteLevel(w.t, org, id));
    forall k | k in w'.t.members ensures RowGood(w'.t.roles, w'.t.depts, w'.t.levels, k.0, w'.t.members[k]) {
      assert RowGood(w.t.roles, w.t.depts, w.t.levels, k.0, w.t.members[k]);
    }
    hide RowGood, RoleIn, ProcGood;
    ProcsLast(w, w', 0);
  }

  lemma RemoveRowKeepsInv(w: World, org: Id, user: Id)
    requires Inv(w)
    ensures Inv(w.(t := RemoveRow(w.t, org, user)))
  {
    hide RoleIn, MadeFor, ProcGood, ProcsGood;
    var w' := w.(t := RemoveRow(w.t, org, user));
    if IsActive(w.t, org, user) {
      var m := w.t.members[(org, user)];
      assert RowGood(w.t.roles, w.t.depts, w.t.levels, org, m);
      RewriteKeepsInv(w, w', 0, (org, user), m.(status := Removed));
    }
  }

  lemma RevokeKeepsInv(w: World, inv: Id)
    requires Inv(w)
    ensures Inv(w.(t := RevokeRow(w.t, inv)))
  {
    hide RoleIn, ProcGood, RowGood, ProcsGood;
    InvitesKeepInv(w, w.(t := RevokeRow(w.t, inv)), 0);
  }

  lemma AddRoleKeepsInv(w: World, org: Id, name: string)
    requires Inv(w)
    ensures Inv(w.(t := CreateRole(w.t, org, name)))
  {
    hide RowGood, RoleIn, ProcGood, ProcsGood, Integrity, RolePattern, Normalize;
    QuietKeepsInv(w, w.(t := CreateRole(w.t, org, name)), 0);
  }

  lemma AddIdKeepsInv(w: World, a: Action)
    requires Inv(w) && (a.AddDept? || a.AddLevel?)
    ensures Inv(Step(w, a))
  {
    hide RowGood, RoleIn, ProcGood, ProcsGood, Integrity;
    QuietKeepsInv(w, Step(w, a), 0);
  }

  lemma StartKeepsInv(w: World, a: Action)
    requires Inv(w) && (a.Reseed? || a.BeginSend? || a.BeginAccept? || a.BeginChange? || a.BeginAdd? || a.Abandon?)
    ensures Inv(Step(w, a))
  {
    hide RowGood, ProcsGood, RoleIn;
    match a
    case Reseed(pid, org, names, owner) => CheckKeepsInv(w, pid, Seeding(org, names, owner, 0));
    case BeginSend(pid, i) => if Normalized(i.role) { CheckKeepsInv(w, pid, Sending(i, false)); }
    case BeginAccept(pid, inv, user, now) =>
      if inv in w.t.invites { CheckKeepsInv(w, pid, Accepting(inv, w.t.invites[inv], user, CheckDept)); }
    case BeginChange(pid, org, target, role) =>
      NormalizeIsStable(role);
      CheckKeepsInv(w, pid, Changing(org, target, Normalize(role), false));
    case BeginAdd(pid, org, user, role) =>
      NormalizeIsStable(role);
      CheckKeepsInv(w, pid, Adding(org, user, Normalize(role), false));
    case Abandon(pid) => CheckKeepsInv(w, pid, Seeding(0, [], None, 0));
  }

  lemma InsertKeepsInv(w: World, a: Action)
    requires Inv(w) && a.InsertOrgRow?
    ensures Inv(Step(w, a))
  {
    hide RowGood, RoleIn, ProcsGood, Integrity;
    QuietKeepsInv(w, Step(w, a), a.pid);
  }

  lemma StepKeepsInv(w: World, a: Action)
    requires Inv(w)
    ensures Inv(Step(w, a))
  {
    hide Inv, DoContinue, DeleteDept, DeleteLevel, RevokeRow, RemoveRow;
    match a
    case InsertOrgRow(_, _, _, _, _, _) => InsertKeepsInv(w, a);
    case Continue(pid, fails, id) => ContinueKeepsInv(w, pid, fails, id);
    case DropDept(org, id) => DropDeptKeepsInv(w, org, id);
    case DropLevel(org, id) => DropLevelKeepsInv(w, org, id);
    case RevokeInvite(inv) => RevokeKeepsInv(w, inv);
    case RemoveRowOf(org, user) => RemoveRowKeepsInv(w, org, user);
    case AddRole(org, name) => AddRoleKeepsInv(w, org, name);
    case AddDept(_, _) => AddIdKeepsInv(w, a);
    case AddLevel(_, _) => AddIdKeepsInv(w, a);
    case _ => StartKeepsInv(w, a);
  }

  lemma {:induction false} InvAlways(run: seq<Action>)
    ensures Inv(Run(run))
  {
    if run != [] {
      InvAlways(run[..|run| - 1]);
      hide Inv, Step;
      StepKeepsInv(Run(run[..|run| - 1]), run[|run| - 1]);
    }
  }

  /** In every reachable state, however the operations interleave: a membership names a normalized role of
      its own organization's catalog, and its department and level, when set, exist and belong to that
      organization. */
  lemma MembershipsStayInCatalog(run: seq<Action>, w: World, org: Id, user: Id)
    requires Reached(run, w) && (org, user) in w.t.members
    ensures var t := w.t; var m := t.members[(org, user)];
      && Normalized(m.role) && (org, m.role) in t.roles
      && (m.dept.Some? ==> m.dept.value in t.depts && t.depts[m.dept.value] == org)
      && (m.level.Some? ==> m.level.value in t.levels && t.levels[m.level.value] == org)
  {
    ReachedIsRun(run, w);
    InvAlways(run);
    hide Run;
    var t := w.t;
    assert RowGood(t.roles, t.depts, t.levels, org, t.members[(org, user)]);
  }

  /** The same for invitations, pending or not; what was checked when one was issued still holds when it
      is accepted. */
  lemma InvitationsStayInCatalog(run: seq<Action>, w: World, inv: Id)
    requires Reached(run, w) && inv in w.t.invites
    ensures var t := w.t; Normalized(t.invites[inv].role) && (t.invites[inv].org, t.invites[inv].role) in t.roles
  {
    ReachedIsRun(run, w);
    InvAlways(run);
    hide Run, RowGood, ProcsGood, Ids;
    var t := w.t;
    assert RoleIn(t.roles, t.invites[inv].org, t.invites[inv].role);
  }

  // ----- operations that nothing interrupts -----

  /** The process carries out `n` statements, none of which fails; `id` is the id it draws for a new row. */
  function Continues(w: World, pid: nat, id: Id, n: nat): World
    decreases n
  {
    if n == 0 then w else Continues(Step(w, Continue(pid, false, id)), pid, id, n - 1)
  }

  lemma {:induction false} NothingLeft(w: World, pid: nat, id: Id, n: nat)
    requires pid !in w.procs
    ensures Continues(w, pid, id, n) == w
  {
    if n > 0 {
      NothingLeft(w, pid, id, n - 1);
    }
  }

  lemma FirstOf(w: World, pid: nat, id: Id, n: nat)
    ensures Continues(w, pid, id, n + 1) == Continues(Step(w, Continue(pid, false, id)), pid, id, n)
  {
  }

  function Or(t: Option<Tables>, w: World): World {
    if t.Some? then w.(t := t.value) else w
  }

  lemma AcceptStatement(w: World, pid: nat, p: Proc, id: Id)
    requires pid !in w.procs && p.Accepting?
    ensures var w' := Step(Goto(w, pid, p), Continue(pid, false, id)); var i := p.read;
      match p.stage
      case CheckDept => w' == Goto(w, pid, p.(stage := CheckLevel(Within(w.t.depts, i.dept, i.org))))
      case CheckLevel(d) => w' == Goto(w, pid, p.(stage := Join(d, Within(w.t.levels, i.level, i.org))))
      case Join(d, l) =>
        (match UpsertMember(w.t, i.org, p.user, i.role, d, l)
         case None => w' == w
         case Some(t) => w' == Goto(w.(t := t), pid, p.(stage := Mark)))
      case Mark => w' == Or(AcceptRow(w.t, p.inv), w)
  {
    assert forall t :: End(Goto(w.(t := t), pid, p), pid) == w.(t := t);
    assert forall q: Proc :: Goto(Goto(w, pid, p), pid, q) == Goto(w, pid, q);
    hide Within, UpsertMember, AcceptRow;
  }

  lemma SeedStatement(w: World, pid: nat, p: Proc, id: Id)
    requires pid !in w.procs && p.Seeding?
    ensures var w' := Step(Goto(w, pid, p), Continue(pid, false, id));
      if p.step == 0 then w' == Goto(w.(t := SeedDefaultRoles(w.t, p.org)), pid, p.(step := 1))
      else if p.step == 1 then w' == Goto(w.(t := SeedExtraRoles(w.t, p.org, p.names)), pid, p.(step := 2))
      else w' == if p.owner.None? then w else Or(UpsertMember(w.t, p.org, p.owner.value, "owner", None, None), w)
  {
    assert forall t :: End(Goto(w.(t := t), pid, p), pid) == w.(t := t);
    hide UpsertMember, SeedDefaultRoles, SeedExtraRoles;
  }

  /** One statement of an operation; the process is the only thing that was added to the state. */
  lemma StatementStep(w: World, pid: nat, p: Proc, id: Id)
    requires pid !in w.procs && !p.Accepting? && !p.Seeding?
    ensures var w' := Step(Goto(w, pid, p), Continue(pid, false, id));
      match p
      case Accepting(_, _, _, _) => true
      case Adding(org, user, role, checked) =>
        if !checked then w' == if role != "" && (org, role) in w.t.roles then Goto(w, pid, Adding(org, user, role, true)) else w
        else w' == Goto(w, pid, AddingTo(org, user, role, KeptDept(w.t.members, org, user), KeptLevel(w.t.members, org, user)))
      case AddingTo(org, user, role, dept, level) => w' == Or(UpsertMember(w.t, org, user, role, dept, level), w)
      case Changing(org, target, role, checked) =>
        if !checked then w' == if role != "" && (org, role) in w.t.roles then Goto(w, pid, Changing(org, target, role, true)) else w
        else w' == w.(t := UpdateRole(w.t, org, target, role))
      case Sending(i, checked) =>
        if !checked then w' == if (i.org, i.role) in w.t.roles && i.role != "owner" then Goto(w, pid, Sending(i, true)) else w
        else w' == if id in w.t.invites then w else w.(t := w.t.(invites := w.t.invites[id := i]))
      case Seeding(_, _, _, _) => true
  {
    assert forall t :: End(Goto(w.(t := t), pid, p), pid) == w.(t := t);
    assert forall q: Proc :: Goto(Goto(w, pid, p), pid, q) == Goto(w, pid, q);
    hide Within, UpsertMember, AcceptRow, SeedDefaultRoles, SeedExtraRoles, UpdateRole;
  }

  /** Carried out with nothing in between, the statements of an acceptance are the whole operation. */
  lemma UninterruptedAcceptance(w: World, pid: nat, inv: Id, user: Id, now: int)
    requires pid !in w.procs && Acceptable(w.t, inv, now)
    ensures Continues(Step(w, BeginAccept(pid, inv, user, now)), pid, 0, 4) == Or(AcceptInvite(w.t, inv, user, now), w)
  {
    hide Continues, Within, UpsertMember, DoContinue;
    var i := w.t.invites[inv];
    var d, l := Within(w.t.depts, i.dept, i.org), Within(w.t.levels, i.level, i.org);
    var p, p1, p2 := Accepting(inv, i, user, CheckDept), Accepting(inv, i, user, CheckLevel(d)), Accepting(inv, i, user, Join(d, l));
    var p3 := Accepting(inv, i, user, Mark);
    assert Step(w, BeginAccept(pid, inv, user, now)) == Goto(w, pid, p);
    AcceptStatement(w, pid, p, 0);
    AcceptStatement(w, pid, p1, 0);
    AcceptStatement(w, pid, p2, 0);
    FirstOf(Goto(w, pid, p), pid, 0, 3);
    FirstOf(Goto(w, pid, p1), pid, 0, 2);
    FirstOf(Goto(w, pid, p2), pid, 0, 1);
    hide Step, Goto;
    match UpsertMember(w.t, i.org, user, i.role, d, l) {
      case None => NothingLeft(w, pid, 0, 1);
      case Some(t) =>
        AcceptStatement(w.(t := t), pid, p3, 0);
        FirstOf(Goto(w.(t := t), pid, p3), pid, 0, 0);
        NothingLeft(Or(AcceptRow(t, inv), w.(t := t)), pid, 0, 0);
        UpsertKeepsInvites(w.t, i.org, user, i.role, d, l);
    }
  }

  lemma UpsertKeepsInvites(t: Tables, org: Id, user: Id, role: string, dept: Option<Id>, level: Option<Id>)
    ensures UpsertMember(t, org, user, role, dept, level).Some? ==> UpsertMember(t, org, user, role, dept, level).value.invites == t.invites
  {
  }

  /** The same for the host adding a member: a role of the catalog, and what the row had before. */
  lemma UninterruptedAddition(w: World, pid: nat, org: Id, user: Id, role: string)
    requires pid !in w.procs
    ensures Continues(Step(w, BeginAdd(pid, org, user, role)), pid, 0, 3) ==
      if Normalize(role) != "" && (org, Normalize(role)) in w.t.roles then
        Or(UpsertMember(w.t, org, user, Normalize(role), KeptDept(w.t.members, org, user), KeptLevel(w.t.members, org, user)), w)
      else w
  {
    hide Continues, UpsertMember, DoContinue, Normalize, KeptDept, KeptLevel;
    var r := Normalize(role);
    var p, p1 := Adding(org, user, r, false), Adding(org, user, r, true);
    var p2 := AddingTo(org, user, r, KeptDept(w.t.members, org, user), KeptLevel(w.t.members, org, user));
    assert Step(w, BeginAdd(pid, org, user, role)) == Goto(w, pid, p);
    StatementStep(w, pid, p, 0);
    StatementStep(w, pid, p1, 0);
    StatementStep(w, pid, p2, 0);
    FirstOf(Goto(w, pid, p), pid, 0, 2);
    FirstOf(Goto(w, pid, p1), pid, 0, 1);
    FirstOf(Goto(w, pid, p2), pid, 0, 0);
    hide Step, Goto;
    NothingLeft(w, pid, 0, 2);
    NothingLeft(Step(Goto(w, pid, p2), Continue(pid, false, 0)), pid, 0, 0) by { assert pid !in Or(UpsertMember(w.t, org, user, r, p2.dept, p2.level), w).procs; }
  }

  /** And for a role change and an invitation, once they are allowed. */
  lemma UninterruptedChange(w: World, pid: nat, org: Id, target: Id, role: string)
    requires pid !in w.procs
    ensures Continues(Step(w, BeginChange(pid, org, target, role)), pid, 0, 2) ==
      if Normalize(role) != "" && (org, Normalize(role)) in w.t.roles then w.(t := UpdateRole(w.t, org, target, Normalize(role))) else w
  {
    hide Continues, UpdateRole, DoContinue, Normalize;
    var p, p1 := Changing(org, target, Normalize(role), false), Changing(org, target, Normalize(role), true);
    assert Step(w, BeginChange(pid, org, target, role)) == Goto(w, pid, p);
    StatementStep(w, pid, p, 0);
    StatementStep(w, pid, p1, 0);
    FirstOf(Goto(w, pid, p), pid, 0, 1);
    FirstOf(Goto(w, pid, p1), pid, 0, 0);
    hide Step, Goto;
    NothingLeft(w, pid, 0, 1);
    NothingLeft(w.(t := UpdateRole(w.t, org, target, Normalize(role))), pid, 0, 0);
  }

  lemma UninterruptedSending(w: World, pid: nat, i: Invite, id: Id)
    requires pid !in w.procs && Wellformed(w.t, i) && id !in w.t.invites
    ensures Continues(Step(w, BeginSend(pid, i)), pid, id, 2) ==
      if (i.org, i.role) in w.t.roles && i.role != "owner" then w.(t := w.t.(invites := w.t.invites[id := i])) else w
  {
    hide Continues, DoContinue, Normalize;
    assert Step(w, BeginSend(pid, i)) == Goto(w, pid, Sending(i, false));
    StatementStep(w, pid, Sending(i, false), id);
    StatementStep(w, pid, Sending(i, true), id);
    FirstOf(Goto(w, pid, Sending(i, false)), pid, id, 1);
    FirstOf(Goto(w, pid, Sending(i, true)), pid, id, 0);
    hide Step, Goto, Wellformed;
    NothingLeft(w, pid, id, 1);
    NothingLeft(w.(t := w.t.(invites := w.t.invites[id := i])), pid, id, 0);
  }

  /** A creation from its organization row on. */
  lemma UninterruptedCreation(w: World, pid: nat, org: Id, slug: string, user: Id, names: seq<string>)
    requires pid !in w.procs && InsertOrg(w.t, org, Organization(slug, user)).Some?
    ensures Continues(Step(w, InsertOrgRow(pid, org, slug, user, names, Some(user))), pid, 0, 3) ==
      w.(t := CreateOrg(w.t, org, user, slug, names, 4))
  {
    hide Continues, DoContinue, SeedDefaultRoles, SeedExtraRoles, UpsertMember;
    var w0 := w.(t := InsertOrg(w.t, org, Organization(slug, user)).value);
    var p := Seeding(org, names, Some(user), 0);
    assert Step(w, InsertOrgRow(pid, org, slug, user, names, Some(user))) == Goto(w0, pid, p);
    hide Step, Goto;
    var w1 := w0.(t := SeedDefaultRoles(w0.t, org));
    var w2 := w1.(t := SeedExtraRoles(w1.t, org, names));
    SeedStatement(w0, pid, p, 0);
    SeedStatement(w1, pid, p.(step := 1), 0);
    SeedStatement(w2, pid, p.(step := 2), 0);
    FirstOf(Goto(w0, pid, p), pid, 0, 2);
    FirstOf(Goto(w1, pid, p.(step := 1)), pid, 0, 1);
    FirstOf(Goto(w2, pid, p.(step := 2)), pid, 0, 0);
    NothingLeft(Or(UpsertMember(w2.t, org, user, "owner", None, None), w2), pid, 0, 0);
  }

  /** The host's departments and levels: a new id belongs to its organization from then on. */
  lemma HostAddsDept(w: World, org: Id, id: Id)
    ensures id !in w.deptOf ==> Step(w, AddDept(org, id)).t == w.t.(depts := w.t.depts[id := org])
  {
  }

  lemma HostAddsLevel(w: World, org: Id, id: Id)
    ensures id !in w.levelOf ==> Step(w, AddLevel(org, id)).t == w.t.(levels := w.t.levels[id := org])
  {
  }

  /** What else the host changes are the statements on the tables. */
  lemma HostChanges(w: World, org: Id, id: Id)
    ensures Step(w, DropDept(org, id)).t == DeleteDept(w.t, org, id) && Step(w, DropLevel(org, id)).t == DeleteLevel(w.t, org, id)
    ensures Step(w, RevokeInvite(id)).t == RevokeRow(w.t, id) && Step(w, RemoveRowOf(org, id)).t == RemoveRow(w.t, org, id)
  {
    hide DeleteDept, DeleteLevel, RevokeRow, RemoveRow, DoContinue;
  }
}
