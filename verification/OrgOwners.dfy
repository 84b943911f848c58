/** Who owns an organization, with creation, invitation, acceptance, role change and removal interleaved
    statement by statement. */
module OrgOwners {
  import opened Prelude
  import opened OrgTables
  import Runs

  datatype SendStage = CheckSender | CheckCatalog | Store

  /** What a role change or removal has read so far. `CountOwners` also decides. */
  datatype ChangeStage =
    | ReadActor
    | ReadTarget(actorRole: string)
    | CountOwners(actorRole: string, targetRole: string)
    | CheckRole
    | Write

  datatype Proc =
    | Creating(org: Id, user: Id, names: seq<string>, step: nat)
    | Sending(invite: Invite, sender: Option<Id>, sending: SendStage)
    | Accepting(inv: Id, read: Invite, user: Id, accepting: AcceptStage)
    /** A change to the role `next`, or a removal; `seen` is whether the organization's creation was
        complete when the target's row was read. */
    | Changing(org: Id, actor: Id, target: Id, next: Option<string>, seen: bool, changing: ChangeStage)

  /** `created` has every organization whose creation completed, with its creator. `joined` has the
      members whose row was written again since: by an acceptance or by the host. `overtaken` has the
      organizations whose creator was changed or removed by a call that had read the creator's row before
      the creation completed. */
  datatype State = State(t: Tables, created: map<Id, Id>, joined: set<(Id, Id)>, overtaken: set<Id>, procs: map<nat, Proc>)

  datatype Action =
    | BeginCreate(pid: nat, org: Id, user: Id, slug: string, names: seq<string>)
    | BeginSend(pid: nat, org: Id, sender: Option<Id>, defaultRole: string, role: string, expiresAt: int,
                dept: Option<Id>, level: Option<Id>)
    | BeginAccept(pid: nat, inv: Id, user: Id, now: int)
    | BeginChange(pid: nat, org: Id, actor: Id, target: Id, role: string)
    | BeginRemove(pid: nat, org: Id, actor: Id, target: Id)
    /** The next statement of an operation, which ends if it `fails`; `id` is the id drawn for a new row. */
    | Continue(pid: nat, fails: bool, id: Id)
    /** The host adds a member or names one owner; department and level are those read before. */
    | AddMember(org: Id, user: Id, role: string, dept: Option<Id>, level: Option<Id>)
    | RevokeInvite(inv: Id)
    | AddRole(org: Id, name: string)
    | AddDept(org: Id, id: Id)
    | AddLevel(org: Id, id: Id)
    | DropDept(org: Id, id: Id)
    | DropLevel(org: Id, id: Id)

  function End(s: State, pid: nat): State {
    s.(procs := s.procs - {pid})
  }

  function Goto(s: State, pid: nat, p: Proc): State {
    s.(procs := s.procs[pid := p])
  }

  function StepCreating(s: State, pid: nat, p: Proc): State
    requires p.Creating?
  {
    if p.step == 0 then Goto(s.(t := SeedDefaultRoles(s.t, p.org)), pid, p.(step := 1))
    else if p.step == 1 then Goto(s.(t := SeedExtraRoles(s.t, p.org, p.names)), pid, p.(step := 2))
    else
      match UpsertMember(s.t, p.org, p.user, "owner", None, None)
      case None => End(s, pid)
      case Some(t) => End(s.(t := t, created := s.created[p.org := p.user], joined := s.joined - {(p.org, p.user)}), pid)
  }

  function StepSending(s: State, pid: nat, p: Proc, id: Id): State
    requires p.Sending?
  {
    var i := p.invite;
    match p.sending
    case CheckSender =>
      if p.sender.Some? && !(IsActive(s.t, i.org, p.sender.value) && Lower(s.t.members[(i.org, p.sender.value)].role) in {"owner", "admin"})
      then End(s, pid) else Goto(s, pid, p.(sending := CheckCatalog))
    case CheckCatalog =>
      if (i.org, i.role) in s.t.roles && i.role != "owner" then Goto(s, pid, p.(sending := Store)) else End(s, pid)
    case Store => End(if id in s.t.invites then s else s.(t := s.t.(invites := s.t.invites[id := i])), pid)
  }

  function StepAccepting(s: State, pid: nat, p: Proc): State
    requires p.Accepting?
  {
    match p.accepting
    case CheckDept => Goto(s, pid, p.(accepting := CheckLevel(Within(s.t.depts, p.read.dept, p.read.org))))
    case CheckLevel(d) => Goto(s, pid, p.(accepting := Join(d, Within(s.t.levels, p.read.level, p.read.org))))
    case Join(d, l) =>
      (match UpsertMember(s.t, p.read.org, p.user, p.read.role, d, l)
       case None => End(s, pid)
       case Some(t) => Goto(s.(t := t, joined := s.joined + {(p.read.org, p.user)}), pid, p.(accepting := Mark)))
    case Mark => End(match AcceptRow(s.t, p.inv) case None => s case Some(t) => s.(t := t), pid)
  }

  function Asked(next: Option<string>): string {
    if next.Some? then next.value else ""
  }

  /** The last statement of a change or removal; it touches active rows only. */
  function Overwrite(t: Tables, org: Id, target: Id, next: Option<string>): Tables {
    match next
    case Some(role) => UpdateRole(t, org, target, role)
    case None => RemoveRow(t, org, target)
  }

  predicate IsCreator(s: State, org: Id, user: Id) {
    org in s.created && s.created[org] == user
  }

  function StepChanging(s: State, pid: nat, p: Proc): State
    requires p.Changing?
  {
    match p.changing
    case ReadActor =>
      if IsActive(s.t, p.org, p.actor) then Goto(s, pid, p.(changing := ReadTarget(s.t.members[(p.org, p.actor)].role))) else End(s, pid)
    case ReadTarget(a) =>
      if IsActive(s.t, p.org, p.target)
      then Goto(s, pid, p.(changing := CountOwners(a, s.t.members[(p.org, p.target)].role), seen := p.org in s.created))
      else End(s, pid)
    case CountOwners(a, r) =>
      if MemberRoleDecision(a, r, Asked(p.next), OwnerCount(s.t, p.org)).Some? then End(s, pid)
      else Goto(s, pid, p.(changing := if p.next.Some? then CheckRole else Write))
    case CheckRole =>
      if Asked(p.next) != "" && (p.org, Asked(p.next)) in s.t.roles then Goto(s, pid, p.(changing := Write)) else End(s, pid)
    case Write =>
      End(s.(t := Overwrite(s.t, p.org, p.target, p.next),
             overtaken := if !p.seen && IsCreator(s, p.org, p.target) then s.overtaken + {p.org} else s.overtaken), pid)
  }

  function DoContinue(s: State, pid: nat, fails: bool, id: Id): State {
    if pid !in s.procs then s
    else if fails then End(s, pid)
    else
      var p := s.procs[pid];
      match p
      case Creating(_, _, _, _) => StepCreating(s, pid, p)
      case Sending(_, _, _) => StepSending(s, pid, p, id)
      case Accepting(_, _, _, _) => StepAccepting(s, pid, p)
      case Changing(_, _, _, _, _, _) => StepChanging(s, pid, p)
  }

  function DoAdd(s: State, org: Id, user: Id, role: string, dept: Option<Id>, level: Option<Id>): State {
    if role == "" || (org, role) !in s.t.roles then s
    else
      match UpsertMember(s.t, org, user, role, dept, level)
      case None => s
      case Some(t) => s.(t := t, joined := s.joined + {(org, user)})
  }

  function Step(s: State, a: Action): State {
    match a
    case BeginCreate(pid, org, user, slug, names) =>
      (match InsertOrg(s.t, org, Organization(slug, user))
       case None => s
       case Some(t) => if pid in s.procs then s else Goto(s.(t := t), pid, Creating(org, user, names, 0)))
    case BeginSend(pid, org, sender, defaultRole, role, expires, dept, level) =>
      if pid in s.procs || org !in s.t.orgs then s
      else Goto(s, pid, Sending(Invite(org, InviteRole(defaultRole, role), expires, false, false, dept, level), sender, CheckSender))
    case BeginAccept(pid, inv, user, now) =>
      if pid in s.procs || !Acceptable(s.t, inv, now) then s else Goto(s, pid, Accepting(inv, s.t.invites[inv], user, CheckDept))
    case BeginChange(pid, org, actor, target, role) =>
      if pid in s.procs || org !in s.t.orgs then s
      else Goto(s, pid, Changing(org, actor, target, Some(Normalize(role)), false, ReadActor))
    case BeginRemove(pid, org, actor, target) =>
      if pid in s.procs || org !in s.t.orgs then s else Goto(s, pid, Changing(org, actor, target, None, false, ReadActor))
    case Continue(pid, fails, id) => DoContinue(s, pid, fails, id)
    case AddMember(org, user, role, dept, level) => DoAdd(s, org, user, Normalize(role), dept, level)
    case RevokeInvite(inv) => s.(t := RevokeRow(s.t, inv))
    case AddRole(org, name) => s.(t := CreateRole(s.t, org, name))
    case AddDept(org, id) => if id in s.t.depts then s else s.(t := s.t.(depts := s.t.depts[id := org]))
    case AddLevel(org, id) => if id in s.t.levels then s else s.(t := s.t.(levels := s.t.levels[id := org]))
    case DropDept(org, id) => s.(t := DeleteDept(s.t, org, id))
    case DropLevel(org, id) => s.(t := DeleteLevel(s.t, org, id))
  }

  const START := State(Tables(map[], {}, map[], map[], map[], map[]), map[], {}, {}, map[])

  function Run(run: seq<Action>): State {
    Runs.After(Step, START, run)
  }

  /** Carrying out `run` from the start leads to `s`. */
  ghost predicate Reached(run: seq<Action>, s: State) {
    Runs.Reached(Step, START, run, s)
  }

  lemma ReachedIsRun(run: seq<Action>, s: State)
    ensures Reached(run, s) <==> s == Run(run)
  {
    hide Step;
    Runs.ReachedIsAfter(Step, START, run, s);
  }

  // ----- no invitation and no change names an owner -----

  /** A process that is past its own check holds a role other than owner. */
  ghost predicate RoleFits(p: Proc) {
    match p
    case Creating(_, _, _, _) => true
    case Sending(i, _, stage) => Lower(i.role) == "owner" ==> i.role == "owner" && !stage.Store?
    case Accepting(_, read, _, _) => Lower(read.role) != "owner"
    case Changing(_, _, _, next, _, stage) => stage.CheckRole? || stage.Write? ==> Lower(Asked(next)) != "owner"
  }

  ghost predicate NobodyNamed(s: State) {
    && (forall i :: i in s.t.invites ==> Lower(s.t.invites[i].role) != "owner")
    && (forall p :: p in s.procs ==> RoleFits(s.procs[p]))
  }

  lemma InvitedRole(defaultRole: string, role: string)
    ensures Lower(InviteRole(defaultRole, role)) == "owner" ==> InviteRole(defaultRole, role) == "owner"
  {
    NormalizeIsStable(role);
    NormalizeIsStable(defaultRole);
    assert Lower("member")[0] == 'm';
    assert InviteRole(defaultRole, role) == "member" || Lower(InviteRole(defaultRole, role)) == InviteRole(defaultRole, role);
  }

  /** The decision lets nobody be named owner. */
  lemma DecidedRole(actor: string, target: string, next: string, owners: nat)
    requires MemberRoleDecision(actor, target, next, owners).None?
    ensures Lower(next) != "owner" && (Normalize(target) == "owner" ==> owners > 1)
  {
    DecisionTable(actor, target, next, owners);
    if Lower(next) == "owner" {
      FoldedOwnerIsOwner(next);
    }
  }

  lemma ContinueNamesNobody(s: State, pid: nat, id: Id)
    requires NobodyNamed(s) && pid in s.procs
    ensures NobodyNamed(DoContinue(s, pid, false, id))
  {
    var p, s' := s.procs[pid], DoContinue(s, pid, false, id);
    assert RoleFits(p);
    match p
    case Creating(_, _, _, _) => CreatingNamesNobody(s, pid, p);
    case Sending(_, _, _) => SendingNamesNobody(s, pid, p, id);
    case Accepting(_, _, _, _) => AcceptingNamesNobody(s, pid, p);
    case Changing(_, _, _, _, _, _) => ChangingNamesNobody(s, pid, p);
  }

  lemma EndNamesNobody(s: State, pid: nat)
    requires NobodyNamed(s)
    ensures NobodyNamed(End(s, pid))
  {
    hide RoleFits, Lower;
  }

  lemma GotoNamesNobody(s: State, pid: nat, p: Proc)
    requires NobodyNamed(s) && RoleFits(p)
    ensures NobodyNamed(Goto(s, pid, p))
  {
    hide RoleFits, Lower;
  }

  lemma QuietNamesNobody(s: State, s': State)
    requires NobodyNamed(s) && s'.procs == s.procs
    requires forall i :: i in s'.t.invites ==> i in s.t.invites && s'.t.invites[i].role == s.t.invites[i].role
    ensures NobodyNamed(s')
  {
    hide RoleFits, Lower;
  }

  /** The process ends or goes on, having changed no invitation's role. */
  lemma MovesNameNobody(s: State, s': State, pid: nat)
    requires NobodyNamed(s)
    requires s'.procs == s.procs - {pid} || (pid in s'.procs && s'.procs == s.procs[pid := s'.procs[pid]] && RoleFits(s'.procs[pid]))
    requires forall i :: i in s'.t.invites ==> i in s.t.invites && s'.t.invites[i].role == s.t.invites[i].role
    ensures NobodyNamed(s')
  {
    hide NobodyNamed, RoleFits;
    var s1 := s'.(procs := s.procs);
    QuietNamesNobody(s, s1);
    EndNamesNobody(s1, pid);
    if pid in s'.procs {
      GotoNamesNobody(s1, pid, s'.procs[pid]);
    }
    assert s' == End(s1, pid) || (pid in s'.procs && s' == Goto(s1, pid, s'.procs[pid]));
  }

  lemma CreatingNamesNobody(s: State, pid: nat, p: Proc)
    requires NobodyNamed(s) && p.Creating?
    ensures NobodyNamed(StepCreating(s, pid, p))
  {
    hide NobodyNamed;
    if p.step <= 1 {
      SeedingKeeps(s.t, p.org, p.names);
      hide SeedDefaultRoles, SeedExtraRoles;
      MovesNameNobody(s, StepCreating(s, pid, p), pid);
    } else {
      MovesNameNobody(s, StepCreating(s, pid, p), pid);
    }
  }

  lemma SendingNamesNobody(s: State, pid: nat, p: Proc, id: Id)
    requires NobodyNamed(s) && p.Sending? && RoleFits(p)
    ensures NobodyNamed(StepSending(s, pid, p, id))
  {
    if p.sending.Store? {
      StoringNamesNobody(s, pid, p, id);
    } else {
      hide NobodyNamed, IsActive, Lower;
      MovesNameNobody(s, StepSending(s, pid, p, id), pid);
    }
  }

  lemma StoringNamesNobody(s: State, pid: nat, p: Proc, id: Id)
    requires NobodyNamed(s) && p.Sending? && RoleFits(p) && p.sending.Store?
    ensures NobodyNamed(StepSending(s, pid, p, id))
  {
    var s1 := if id in s.t.invites then s else s.(t := s.t.(invites := s.t.invites[id := p.invite]));
    assert NobodyNamed(s1);
    hide NobodyNamed;
    EndNamesNobody(s1, pid);
  }

  lemma AcceptingNamesNobody(s: State, pid: nat, p: Proc)
    requires NobodyNamed(s) && p.Accepting? && RoleFits(p)
    ensures NobodyNamed(StepAccepting(s, pid, p))
  {
    hide NobodyNamed, Within, Coalesce, Lower;
    MovesNameNobody(s, StepAccepting(s, pid, p), pid);
  }

  lemma ChangingNamesNobody(s: State, pid: nat, p: Proc)
    requires NobodyNamed(s) && p.Changing? && RoleFits(p)
    ensures NobodyNamed(StepChanging(s, pid, p))
  {
    hide MemberRoleDecision, OwnerCount, Asked, NobodyNamed, IsActive, Lower, Normalize, Overwrite;
    if p.changing.CountOwners? && MemberRoleDecision(p.changing.actorRole, p.changing.targetRole, Asked(p.next), OwnerCount(s.t, p.org)).None? {
      DecidedRole(p.changing.actorRole, p.changing.targetRole, Asked(p.next), OwnerCount(s.t, p.org));
    }
    OverwriteKeepsInvites(s.t, p.org, p.target, p.next);
    MovesNameNobody(s, StepChanging(s, pid, p), pid);
  }

  lemma OverwriteKeepsInvites(t: Tables, org: Id, target: Id, next: Option<string>)
    ensures Overwrite(t, org, target, next).invites == t.invites
  {
  }

  lemma StepNamesNobody(s: State, a: Action)
    requires NobodyNamed(s)
    ensures NobodyNamed(Step(s, a))
  {
    hide StepCreating, StepSending, StepAccepting, StepChanging, RolePattern, Normalize, Lower;
    match a
    case BeginSend(_, _, _, defaultRole, role, _, _, _) => InvitedRole(defaultRole, role);
    case Continue(pid, fails, id) =>
      if pid in s.procs && !fails {
        hide NobodyNamed, DoContinue;
        ContinueNamesNobody(s, pid, id);
      }
    case _ =>
  }

  /** In every run, whatever the host adds, no invitation is for an owner and neither is what an acceptance
      or change has decided to write. */
  lemma {:induction false} NobodyNamedAlways(run: seq<Action>)
    ensures NobodyNamed(Run(run))
  {
    if run != [] {
      NobodyNamedAlways(run[..|run| - 1]);
      hide NobodyNamed, Step;
      StepNamesNobody(Run(run[..|run| - 1]), run[|run| - 1]);
    }
  }

  // ----- the owners of one organization -----

  /** The creator's row was written again since the creation completed. */
  predicate Displaced(s: State, org: Id)
    requires org in s.created
  {
    (org, s.created[org]) in s.joined || org in s.overtaken
  }

  /** Only the creator's row ever holds the owner role, and it is an active owner's exactly until it is
      written again. */
  ghost predicate Rows(s: State, org: Id) {
    && (org in s.created ==> org in s.t.orgs && (IsOwner(s.t, org, s.created[org]) <==> !Displaced(s, org)))
    && (org in s.overtaken ==> org in s.created)
    && (forall u :: (org, u) in s.t.members && Lower(s.t.members[(org, u)].role) == "owner" ==> IsCreator(s, org, u))
  }

  /** The call has read or decided that the target is not an owner. */
  predicate TakenForOther(stage: ChangeStage) {
    stage.CheckRole? || stage.Write? || (stage.CountOwners? && Normalize(stage.targetRole) != "owner")
  }

  /** What a process knows that concerns `org`: a change decided on a row read after the creation completed
      can hit the creator only when that row is no longer an owner's. */
  ghost predicate Fits(s: State, org: Id, p: Proc) {
    match p
    case Creating(o, _, _, _) => o == org ==> org in s.t.orgs && org !in s.created
    case Changing(o, _, target, _, seen, stage) =>
      o == org && seen ==> org in s.created && (target == s.created[org] && TakenForOther(stage) ==> Displaced(s, org))
    case _ => true
  }

  ghost predicate Founds(procs: map<nat, Proc>, pid: nat, org: Id) {
    pid in procs && procs[pid].Creating? && procs[pid].org == org
  }

  ghost predicate Inv(s: State, org: Id) {
    && Rows(s, org)
    && (forall p :: p in s.procs ==> Fits(s, org, s.procs[p]))
    && (forall p, q :: Founds(s.procs, p, org) && Founds(s.procs, q, org) ==> p == q)
  }

  lemma EndKeepsInv(s: State, pid: nat, org: Id)
    requires Inv(s, org)
    ensures Inv(End(s, pid), org)
  {
    var s' := End(s, pid);
    assert forall p :: Founds(s'.procs, p, org) ==> Founds(s.procs, p, org);
    forall p | p in s'.procs ensures Fits(s', org, s'.procs[p]) {
      assert Fits(s, org, s.procs[p]);
    }
    hide Lower, Normalize;
  }

  lemma GotoKeepsInv(s: State, pid: nat, p: Proc, org: Id)
    requires Inv(s, org) && Fits(s, org, p)
    requires p.Creating? && p.org == org ==> Founds(s.procs, pid, org)
    ensures Inv(Goto(s, pid, p), org)
  {
    var s' := Goto(s, pid, p);
    assert forall q :: Founds(s'.procs, q, org) ==> Founds(s.procs, q, org);
    forall q | q in s'.procs ensures Fits(s', org, s'.procs[q]) {
      if q != pid {
        assert Fits(s, org, s.procs[q]);
      }
    }
    hide Lower, Normalize;
  }

  /** The rows of `org` keep their role and status. */
  ghost predicate SameRoles(t: Tables, t': Tables, org: Id) {
    && t.orgs.Keys <= t'.orgs.Keys
    && (forall u :: (org, u) in t'.members <==> (org, u) in t.members)
    && (forall u :: (org, u) in t.members ==>
          t'.members[(org, u)].role == t.members[(org, u)].role && t'.members[(org, u)].status == t.members[(org, u)].status)
  }

  /** Of what is recorded about `org` nothing changes. */
  ghost predicate SameRecord(s: State, s': State, org: Id) {
    && (org in s'.created <==> org in s.created) && (org in s.created ==> s'.created[org] == s.created[org])
    && (forall u :: (org, u) in s'.joined <==> (org, u) in s.joined)
    && (org in s'.overtaken <==> org in s.overtaken)
  }

  lemma QuietKeepsInv(s: State, s': State, org: Id)
    requires Inv(s, org) && SameRoles(s.t, s'.t, org) && SameRecord(s, s', org) && s'.procs == s.procs
    ensures Inv(s', org)
  {
    forall p | p in s'.procs ensures Fits(s', org, s'.procs[p]) {
      assert Fits(s, org, s.procs[p]);
    }
    hide Lower, Normalize;
  }

  /** The row of `user` gets a role other than owner, or is marked removed, and that is recorded. */
  ghost predicate Demotes(s: State, s': State, org: Id, user: Id) {
    && s'.created == s.created && s'.t.orgs == s.t.orgs
    && (forall u :: u != user ==> ((org, u) in s'.t.members <==> (org, u) in s.t.members))
    && (forall u :: u != user && (org, u) in s.t.members ==> s'.t.members[(org, u)] == s.t.members[(org, u)])
    && ((org, user) in s'.t.members && Lower(s'.t.members[(org, user)].role) == "owner" ==>
          (org, user) in s.t.members && Lower(s.t.members[(org, user)].role) == "owner" && s'.t.members[(org, user)].status == Removed)
    && (forall u :: u != user ==> ((org, u) in s'.joined <==> (org, u) in s.joined))
    && (org in s'.overtaken && org !in s.overtaken ==> IsCreator(s, org, user))
    && s.joined <= s'.joined && s.overtaken <= s'.overtaken
    && (IsCreator(s, org, user) ==> Displaced(s', org))
  }

  lemma DemotionKeepsRows(s: State, s': State, org: Id, user: Id)
    requires Rows(s, org) && Demotes(s, s', org, user)
    ensures Rows(s', org)
    ensures org in s.created && Displaced(s, org) ==> Displaced(s', org)
  {
    hide Lower;
  }

  lemma DemotionKeepsInv(s: State, s': State, org: Id, user: Id)
    requires Inv(s, org) && Demotes(s, s', org, user) && s'.procs == s.procs
    ensures Inv(s', org)
  {
    DemotionKeepsRows(s, s', org, user);
    assert s'.created == s.created && s'.t.orgs == s.t.orgs;
    hide Rows, Demotes, TakenForOther;
    forall p | p in s'.procs ensures Fits(s', org, s'.procs[p]) {
      assert Fits(s, org, s.procs[p]);
    }
  }

  // ----- creation -----

  lemma SeedingKeepsInv(s: State, pid: nat, p: Proc, org: Id)
    requires Inv(s, org) && pid in s.procs && s.procs[pid] == p && p.Creating? && p.step <= 1
    ensures Inv(StepCreating(s, pid, p), org)
  {
    SeedingKeeps(s.t, p.org, p.names);
    var s1 := s.(t := if p.step == 0 then SeedDefaultRoles(s.t, p.org) else SeedExtraRoles(s.t, p.org, p.names));
    hide SeedDefaultRoles, SeedExtraRoles;
    assert Fits(s, org, p);
    hide Inv;
    QuietKeepsInv(s, s1, org);
    GotoKeepsInv(s1, pid, p.(step := p.step + 1), org) by { assert Inv(s, org); assert Founds(s.procs, pid, p.org); }
  }

  /** The creator's row is written: from here on it is the owner's. */
  lemma CompletionKeepsInv(s: State, pid: nat, p: Proc, org: Id)
    requires Inv(s, org) && pid in s.procs && s.procs[pid] == p && p.Creating? && p.step >= 2 && p.org == org
    ensures Inv(StepCreating(s, pid, p), org)
  {
    var s' := StepCreating(s, pid, p);
    assert Fits(s, org, p);
    if UpsertMember(s.t, org, p.user, "owner", None, None).Some? {
      assert Lower("owner") == "owner";
      CompletedRows(s, s', org, p.user);
      hide Rows, UpsertMember, Displaced, Normalize, TakenForOther;
      forall q | q in s'.procs ensures Fits(s', org, s'.procs[q]) {
        assert Fits(s, org, s.procs[q]);
        assert Founds(s.procs, pid, org) && (Founds(s.procs, q, org) ==> q == pid);
      }
      assert forall q :: Founds(s'.procs, q, org) ==> Founds(s.procs, q, org);
    } else {
      EndKeepsInv(s, pid, org);
    }
  }

  lemma CompletedRows(s: State, s': State, org: Id, user: Id)
    requires Rows(s, org) && org !in s.created && UpsertMember(s.t, org, user, "owner", None, None).Some?
    requires s'.t == UpsertMember(s.t, org, user, "owner", None, None).value && s'.overtaken == s.overtaken
    requires s'.created == s.created[org := user] && s'.joined == s.joined - {(org, user)}
    ensures Rows(s', org)
  {
    assert Lower("owner") == "owner";
    hide Lower, Coalesce;
  }

  lemma UpsertElsewhere(t: Tables, o: Id, user: Id, role: string, dept: Option<Id>, level: Option<Id>, org: Id)
    requires o != org && UpsertMember(t, o, user, role, dept, level).Some?
    ensures SameRoles(t, UpsertMember(t, o, user, role, dept, level).value, org)
  {
    hide Coalesce;
  }

  lemma CompletionElsewhere(s: State, pid: nat, p: Proc, org: Id)
    requires Inv(s, org) && p.Creating? && p.step >= 2 && p.org != org
    ensures Inv(StepCreating(s, pid, p), org)
  {
    hide Inv, SameRoles;
    match UpsertMember(s.t, p.org, p.user, "owner", None, None) {
      case None => EndKeepsInv(s, pid, org);
      case Some(t) =>
        UpsertElsewhere(s.t, p.org, p.user, "owner", None, None, org);
        var s1 := s.(t := t, created := s.created[p.org := p.user], joined := s.joined - {(p.org, p.user)});
        QuietKeepsInv(s, s1, org);
        EndKeepsInv(s1, pid, org);
    }
  }

  // ----- acceptance and the host's additions -----

  /** A membership written with a role other than owner and recorded. */
  lemma JoiningKeepsInv(s: State, o: Id, user: Id, role: string, dept: Option<Id>, level: Option<Id>, org: Id)
    requires Inv(s, org) && UpsertMember(s.t, o, user, role, dept, level).Some? && (o == org ==> Lower(role) != "owner")
    ensures Inv(s.(t := UpsertMember(s.t, o, user, role, dept, level).value, joined := s.joined + {(o, user)}), org)
  {
    var s' := s.(t := UpsertMember(s.t, o, user, role, dept, level).value, joined := s.joined + {(o, user)});
    if o == org {
      JoiningDemotes(s, s', org, user, role, dept, level);
      hide Inv, Demotes, UpsertMember;
      DemotionKeepsInv(s, s', org, user);
    } else {
      UpsertElsewhere(s.t, o, user, role, dept, level, org);
      hide Inv, UpsertMember;
      QuietKeepsInv(s, s', org);
    }
  }

  lemma JoiningDemotes(s: State, s': State, org: Id, user: Id, role: string, dept: Option<Id>, level: Option<Id>)
    requires UpsertMember(s.t, org, user, role, dept, level).Some? && Lower(role) != "owner"
    requires s' == s.(t := UpsertMember(s.t, org, user, role, dept, level).value, joined := s.joined + {(org, user)})
    ensures Demotes(s, s', org, user)
  {
    hide Coalesce, Lower;
  }

  lemma AcceptingKeepsInv(s: State, pid: nat, p: Proc, org: Id)
    requires Inv(s, org) && p.Accepting? && RoleFits(p)
    ensures Inv(StepAccepting(s, pid, p), org)
  {
    hide Inv, Within, Lower;
    match p.accepting
    case CheckDept => GotoKeepsInv(s, pid, p.(accepting := CheckLevel(Within(s.t.depts, p.read.dept, p.read.org))), org);
    case CheckLevel(d) => GotoKeepsInv(s, pid, p.(accepting := Join(d, Within(s.t.levels, p.read.level, p.read.org))), org);
    case Join(d, l) =>
      hide UpsertMember;
      match UpsertMember(s.t, p.read.org, p.user, p.read.role, d, l) {
        case None => EndKeepsInv(s, pid, org);
        case Some(t) =>
          JoiningKeepsInv(s, p.read.org, p.user, p.read.role, d, l, org);
          GotoKeepsInv(s.(t := t, joined := s.joined + {(p.read.org, p.user)}), pid, p.(accepting := Mark), org);
      }
    case Mark =>
      var s1 := match AcceptRow(s.t, p.inv) case None => s case Some(t) => s.(t := t);
      QuietKeepsInv(s, s1, org);
      EndKeepsInv(s1, pid, org);
  }

  lemma AddingKeepsInv(s: State, o: Id, user: Id, role: string, dept: Option<Id>, level: Option<Id>, org: Id)
    requires Inv(s, org) && (o == org ==> Lower(role) != "owner")
    ensures Inv(DoAdd(s, o, user, role, dept, level), org)
  {
    hide Inv, UpsertMember, Lower;
    if UpsertMember(s.t, o, user, role, dept, level).Some? {
      JoiningKeepsInv(s, o, user, role, dept, level, org);
    }
  }

  // ----- change and removal -----

  /** At most one row counts as an owner's. */
  lemma OneOwnerAtMost(s: State, org: Id)
    requires Rows(s, org)
    ensures OwnerCount(s.t, org) <= 1
    ensures Owners(s.t, org) == if org in s.created && !Displaced(s, org) then {s.created[org]} else {}
  {
    forall u | u in Owners(s.t, org) ensures org in s.created && u == s.created[org] && !Displaced(s, org) {
      OwnerIsCounted(s.t, org, u);
    }
    if org in s.created {
      OwnerIsCounted(s.t, org, s.created[org]);
      assert !Displaced(s, org) ==> Owners(s.t, org) == {s.created[org]};
    }
  }

  lemma ReadTargetKeepsInv(s: State, pid: nat, p: Proc, org: Id)
    requires Inv(s, org) && p.Changing? && p.changing.ReadTarget?
    ensures Inv(StepChanging(s, pid, p), org)
  {
    if IsActive(s.t, p.org, p.target) {
      var role := s.t.members[(p.org, p.target)].role;
      var next := p.(changing := CountOwners(p.changing.actorRole, role), seen := p.org in s.created);
      if Lower(role) == "owner" {
        FoldedOwnerIsOwner(role);
      }
      assert Fits(s, org, next);
      hide Inv, Fits;
      GotoKeepsInv(s, pid, next, org);
    } else {
      EndKeepsInv(s, pid, org);
    }
  }

  lemma DecisionKeepsInv(s: State, pid: nat, p: Proc, org: Id)
    requires Inv(s, org) && p.Changing? && p.changing.CountOwners? && Fits(s, org, p)
    ensures Inv(StepChanging(s, pid, p), org)
  {
    hide MemberRoleDecision, OwnerCount, Asked, Normalize;
    if MemberRoleDecision(p.changing.actorRole, p.changing.targetRole, Asked(p.next), OwnerCount(s.t, p.org)).Some? {
      EndKeepsInv(s, pid, org);
    } else {
      DecidedRole(p.changing.actorRole, p.changing.targetRole, Asked(p.next), OwnerCount(s.t, p.org));
      OneOwnerAtMost(s, org);
      var next := p.(changing := if p.next.Some? then CheckRole else Write);
      assert Fits(s, org, next);
      hide Inv, Fits;
      GotoKeepsInv(s, pid, next, org);
    }
  }

  lemma OverwriteElsewhere(t: Tables, o: Id, target: Id, next: Option<string>, org: Id)
    requires o != org
    ensures SameRoles(t, Overwrite(t, o, target, next), org)
  {
  }

  lemma OverwriteDemotes(s: State, s': State, org: Id, target: Id, next: Option<string>, seen: bool)
    requires Lower(Asked(next)) != "owner"
    requires s' == s.(t := Overwrite(s.t, org, target, next),
                      overtaken := if !seen && IsCreator(s, org, target) then s.overtaken + {org} else s.overtaken)
    requires seen && IsCreator(s, org, target) ==> Displaced(s, org)
    ensures Demotes(s, s', org, target)
  {
    hide Lower;
  }

  lemma WriteKeepsInv(s: State, pid: nat, p: Proc, org: Id)
    requires Inv(s, org) && p.Changing? && p.changing.Write? && Fits(s, org, p) && RoleFits(p)
    ensures Inv(StepChanging(s, pid, p), org)
  {
    hide Overwrite, Asked, Lower;
    var s1 := s.(t := Overwrite(s.t, p.org, p.target, p.next),
                 overtaken := if !p.seen && IsCreator(s, p.org, p.target) then s.overtaken + {p.org} else s.overtaken);
    if p.org == org {
      OverwriteDemotes(s, s1, org, p.target, p.next, p.seen);
      hide Inv, Demotes;
      DemotionKeepsInv(s, s1, org, p.target);
    } else {
      OverwriteElsewhere(s.t, p.org, p.target, p.next, org);
      hide Inv, SameRoles;
      QuietKeepsInv(s, s1, org);
    }
    EndKeepsInv(s1, pid, org);
  }

  lemma ChangingKeepsInv(s: State, pid: nat, p: Proc, org: Id)
    requires Inv(s, org) && p.Changing? && Fits(s, org, p) && RoleFits(p)
    ensures Inv(StepChanging(s, pid, p), org)
  {
    match p.changing
    case ReadTarget(_) => ReadTargetKeepsInv(s, pid, p, org);
    case CountOwners(_, _) => DecisionKeepsInv(s, pid, p, org);
    case Write => WriteKeepsInv(s, pid, p, org);
    case ReadActor => OtherStagesKeepInv(s, pid, p, org);
    case CheckRole => OtherStagesKeepInv(s, pid, p, org);
  }

  lemma OtherStagesKeepInv(s: State, pid: nat, p: Proc, org: Id)
    requires Inv(s, org) && p.Changing? && Fits(s, org, p) && (p.changing.ReadActor? || p.changing.CheckRole?)
    ensures Inv(StepChanging(s, pid, p), org)
  {
    hide Inv, Asked, Normalize;
    EndKeepsInv(s, pid, org);
    var s' := StepChanging(s, pid, p);
    if pid in s'.procs {
      GotoKeepsInv(s, pid, s'.procs[pid], org);
    }
  }

  // ----- all steps -----

  lemma SendingKeepsInv(s: State, pid: nat, p: Proc, id: Id, org: Id)
    requires Inv(s, org) && p.Sending?
    ensures Inv(StepSending(s, pid, p, id), org)
  {
    hide Inv, Lower;
    EndKeepsInv(s, pid, org);
    GotoKeepsInv(s, pid, p.(sending := CheckCatalog), org);
    GotoKeepsInv(s, pid, p.(sending := Store), org);
    if p.sending.Store? && id !in s.t.invites {
      var s1 := s.(t := s.t.(invites := s.t.invites[id := p.invite]));
      QuietKeepsInv(s, s1, org);
      EndKeepsInv(s1, pid, org);
    }
  }

  lemma ContinueKeepsInv(s: State, pid: nat, fails: bool, id: Id, org: Id)
    requires Inv(s, org) && NobodyNamed(s)
    ensures Inv(DoContinue(s, pid, fails, id), org)
  {
    if pid in s.procs {
      var p := s.procs[pid];
      assert RoleFits(p) && Fits(s, org, p);
      hide Inv, NobodyNamed, RoleFits, Fits, StepCreating, StepSending, StepAccepting, StepChanging;
      EndKeepsInv(s, pid, org);
      match p
      case Creating(o, _, _, step) =>
        if step <= 1 { SeedingKeepsInv(s, pid, p, org); }
        else if o == org { CompletionKeepsInv(s, pid, p, org); }
        else { CompletionElsewhere(s, pid, p, org); }
      case Sending(_, _, _) => SendingKeepsInv(s, pid, p, id, org);
      case Accepting(_, _, _, _) => AcceptingKeepsInv(s, pid, p, org);
      case Changing(_, _, _, _, _, _) => ChangingKeepsInv(s, pid, p, org);
    }
  }

  lemma FoundingKeepsInv(s: State, pid: nat, o: Id, user: Id, slug: string, names: seq<string>, org: Id)
    requires Inv(s, org) && pid !in s.procs && InsertOrg(s.t, o, Organization(slug, user)).Some?
    ensures Inv(Step(s, BeginCreate(pid, o, user, slug, names)), org)
  {
    var s' := Step(s, BeginCreate(pid, o, user, slug, names));
    if o == org {
      forall q | q in s'.procs ensures Fits(s', org, s'.procs[q]) && (Founds(s'.procs, q, org) ==> q == pid) {
        if q != pid {
          assert Fits(s, org, s.procs[q]);
        }
      }
      hide Normalize, Lower;
    } else {
      var s1 := s.(t := InsertOrg(s.t, o, Organization(slug, user)).value);
      QuietKeepsInv(s, s1, org);
      hide Inv;
      GotoKeepsInv(s1, pid, Creating(o, user, names, 0), org);
    }
  }

  lemma BeginningKeepsInv(s: State, a: Action, org: Id)
    requires Inv(s, org) && (a.BeginSend? || a.BeginAccept? || a.BeginChange? || a.BeginRemove?)
    ensures Inv(Step(s, a), org)
  {
    hide Inv, InviteRole, Normalize, Acceptable;
    var s' := Step(s, a);
    if s' != s {
      GotoKeepsInv(s, a.pid, s'.procs[a.pid], org);
    }
  }

  lemma CatalogKeepsInv(s: State, a: Action, org: Id)
    requires Inv(s, org)
    requires a.RevokeInvite? || a.AddRole? || a.AddDept? || a.AddLevel? || a.DropDept? || a.DropLevel?
    ensures Inv(Step(s, a), org)
  {
    hide Inv, RolePattern, Normalize, Lower;
    match a
    case RevokeInvite(inv) => TablesKeepInv(s, RevokeRow(s.t, inv), org);
    case AddRole(o, name) => TablesKeepInv(s, CreateRole(s.t, o, name), org);
    case AddDept(o, id) => TablesKeepInv(s, Step(s, a).t, org);
    case AddLevel(o, id) => TablesKeepInv(s, Step(s, a).t, org);
    case DropDept(o, id) => TablesKeepInv(s, DeleteDept(s.t, o, id), org);
    case DropLevel(o, id) => TablesKeepInv(s, DeleteLevel(s.t, o, id), org);
  }

  lemma TablesKeepInv(s: State, t: Tables, org: Id)
    requires Inv(s, org) && SameRoles(s.t, t, org)
    ensures Inv(s.(t := t), org)
  {
    hide Inv;
    QuietKeepsInv(s, s.(t := t), org);
  }

  /** The action is not the host naming an owner of `org`. */
  predicate NamesNoOwner(a: Action, org: Id) {
    a.AddMember? && a.org == org ==> Normalize(a.role) != "owner"
  }

  lemma StepKeepsInv(s: State, a: Action, org: Id)
    requires Inv(s, org) && NobodyNamed(s) && NamesNoOwner(a, org)
    ensures Inv(Step(s, a), org)
  {
    hide Inv, NobodyNamed, DoContinue, DoAdd, InsertOrg, Normalize;
    match a
    case BeginCreate(pid, o, user, slug, names) =>
      if pid !in s.procs && InsertOrg(s.t, o, Organization(slug, user)).Some? { FoundingKeepsInv(s, pid, o, user, slug, names, org); }
    case Continue(pid, fails, id) => ContinueKeepsInv(s, pid, fails, id, org);
    case AddMember(o, user, role, dept, level) =>
      NormalizeIsStable(role);
      AddingKeepsInv(s, o, user, Normalize(role), dept, level, org);
    case BeginSend(_, _, _, _, _, _, _, _) => BeginningKeepsInv(s, a, org);
    case BeginAccept(_, _, _, _) => BeginningKeepsInv(s, a, org);
    case BeginChange(_, _, _, _, _) => BeginningKeepsInv(s, a, org);
    case BeginRemove(_, _, _, _) => BeginningKeepsInv(s, a, org);
    case _ => CatalogKeepsInv(s, a, org);
  }

  lemma {:induction false} InvAlways(run: seq<Action>, org: Id)
    requires forall i :: 0 <= i < |run| ==> NamesNoOwner(run[i], org)
    ensures Inv(Run(run), org)
  {
    if run != [] {
      var before := run[..|run| - 1];
      assert forall i :: 0 <= i < |before| ==> before[i] == run[i];
      InvAlways(before, org);
      NobodyNamedAlways(before);
      hide Inv, NobodyNamed, NamesNoOwner, Step;
      StepKeepsInv(Run(before), run[|run| - 1], org);
    }
  }

  // ----- results -----

  /** In every run in which the host names no other owner, a created organization is owned by its creator
      until the creator's row is written again, and by nobody ever after. */
  lemma OwnersAreTheCreator(run: seq<Action>, s: State, org: Id)
    requires Reached(run, s) && org in s.created
    requires forall i :: 0 <= i < |run| ==> NamesNoOwner(run[i], org)
    ensures Owners(s.t, org) == if (org, s.created[org]) in s.joined || org in s.overtaken then {} else {s.created[org]}
  {
    ReachedIsRun(run, s);
    InvAlways(run, org);
    hide Run, NamesNoOwner;
    OneOwnerAtMost(s, org);
  }

  /** An organization whose creation did not complete never has an owner. */
  lemma UnfinishedHasNoOwner(run: seq<Action>, s: State, org: Id)
    requires Reached(run, s) && org !in s.created
    requires forall i :: 0 <= i < |run| ==> NamesNoOwner(run[i], org)
    ensures Owners(s.t, org) == {}
  {
    ReachedIsRun(run, s);
    InvAlways(run, org);
    hide Run, NamesNoOwner;
    OneOwnerAtMost(s, org);
  }

  lemma DisplacedForGood(s: State, a: Action, org: Id)
    requires Inv(s, org) && org in s.created && Displaced(s, org)
    ensures var s' := Step(s, a); IsCreator(s', org, s.created[org]) && Displaced(s', org)
  {
    if a.Continue? && a.pid in s.procs {
      assert Fits(s, org, s.procs[a.pid]);
    }
    hide Inv, InsertOrg, UpsertMember, InviteRole, Normalize, MemberRoleDecision, Owners, Overwrite, Within, RolePattern;
  }

  lemma {:induction false} DisplacedSince(run: seq<Action>, rest: seq<Action>, org: Id)
    requires forall i :: 0 <= i < |run + rest| ==> NamesNoOwner((run + rest)[i], org)
    requires org in Run(run).created && Displaced(Run(run), org)
    ensures var s' := Run(run + rest); IsCreator(s', org, Run(run).created[org]) && Displaced(s', org)
  {
    if rest == [] {
      assert run + rest == run;
    } else {
      var before := rest[..|rest| - 1];
      assert (run + rest)[..|run + rest| - 1] == run + before;
      assert forall i :: 0 <= i < |run + before| ==> (run + before)[i] == (run + rest)[i];
      hide Step, Inv, NamesNoOwner, Displaced;
      DisplacedSince(run, before, org);
      InvAlways(run + before, org);
      assert Run(run + rest) == Step(Run(run + before), rest[|rest| - 1]);
      DisplacedForGood(Run(run + before), rest[|rest| - 1], org);
    }
  }

  /** Once a created organization has no owner it never has one again, unless the host names one. */
  lemma OwnerNeverReturns(run: seq<Action>, s: State, rest: seq<Action>, s': State, org: Id)
    requires Reached(run, s) && Reached(run + rest, s') && org in s.created && Owners(s.t, org) == {}
    requires forall i :: 0 <= i < |run + rest| ==> NamesNoOwner((run + rest)[i], org)
    ensures Owners(s'.t, org) == {}
  {
    ReachedIsRun(run, s);
    ReachedIsRun(run + rest, s');
    assert forall i :: 0 <= i < |run| ==> run[i] == (run + rest)[i];
    InvAlways(run, org);
    InvAlways(run + rest, org);
    OneOwnerAtMost(s, org);
    DisplacedSince(run, rest, org);
    OneOwnerAtMost(s', org);
    hide Run, NamesNoOwner;
  }
}
