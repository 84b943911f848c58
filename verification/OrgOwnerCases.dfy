/** When a single statement leaves an organization without an owner, and runs in which that happens. */
module OrgOwnerCases {
  import opened Prelude
  import opened OrgTables
  import opened OrgOwners
  import Runs

  // ----- the statements that can take an owner away -----

  /** The last statement of a change or removal, on any table and whatever was read before it: an owner is
      left exactly when someone else is one or the row written is itself an active owner's. */
  lemma OverwriteKeepsAnOwnerIff(t: Tables, org: Id, target: Id, next: Option<string>)
    ensures OwnerCount(Overwrite(t, org, target, next), org) >= 1 <==>
      || (exists other: Id :: other != target && IsOwner(t, org, other))
      || (next.Some? && IsActive(t, org, target) && Lower(next.value) == "owner")
  {
    var t' := Overwrite(t, org, target, next);
    var own := next.Some? && IsActive(t, org, target) && Lower(next.value) == "owner";
    forall u ensures u in Owners(t', org) <==> (u != target && IsOwner(t, org, u)) || (u == target && own) {
      OwnerIsCounted(t', org, u);
      OwnerAfterOverwrite(t, org, target, next, u);
    }
    hide Owners, IsOwner, Overwrite;
    if other: Id :| other != target && IsOwner(t, org, other) {
      NonEmpty({other}, Owners(t', org));
    } else if own {
      NonEmpty({target}, Owners(t', org));
    } else {
      assert Owners(t', org) == {};
    }
  }

  lemma OwnerAfterOverwrite(t: Tables, org: Id, target: Id, next: Option<string>, u: Id)
    ensures IsOwner(Overwrite(t, org, target, next), org, u) <==>
      (u != target && IsOwner(t, org, u)) || (u == target && next.Some? && IsActive(t, org, target) && Lower(next.value) == "owner")
  {
    hide Lower;
  }

  /** In every run, the host's additions included: the write that ends a change or removal, however late,
      leaves an owner exactly when at that moment somebody other than the target is one. */
  lemma LateWriteKeepsAnOwnerIff(run: seq<Action>, s: State, pid: nat, id: Id)
    requires Reached(run, s) && pid in s.procs && s.procs[pid].Changing? && s.procs[pid].changing.Write?
    ensures var p := s.procs[pid];
      OwnerCount(Step(s, Continue(pid, false, id)).t, p.org) >= 1 <==> exists other: Id :: other != p.target && IsOwner(s.t, p.org, other)
  {
    ReachedIsRun(run, s);
    NobodyNamedAlways(run);
    var p := s.procs[pid];
    assert RoleFits(p);
    OverwriteKeepsAnOwnerIff(s.t, p.org, p.target, p.next);
    hide OwnerCount, Overwrite, Lower, IsOwner, NobodyNamed, Run;
  }

  /** In every run: an accepted invitation, taken as one step, leaves an owner exactly when somebody other
      than the one who accepts is one. */
  lemma AcceptKeepsAnOwnerIff(run: seq<Action>, s: State, inv: Id, user: Id, now: int)
    requires Reached(run, s) && AcceptInvite(s.t, inv, user, now).Some?
    ensures var org := s.t.invites[inv].org;
      OwnerCount(AcceptInvite(s.t, inv, user, now).value, org) >= 1 <==> exists other: Id :: other != user && IsOwner(s.t, org, other)
  {
    ReachedIsRun(run, s);
    NobodyNamedAlways(run);
    hide Run;
    var i := s.t.invites[inv];
    var dept, level := Within(s.t.depts, i.dept, i.org), Within(s.t.levels, i.level, i.org);
    var t' := UpsertMember(s.t, i.org, user, i.role, dept, level).value;
    UpsertKeepsAnOwnerIff(s.t, i.org, user, i.role, dept, level);
    assert Owners(AcceptRow(t', inv).value, i.org) == Owners(t', i.org);
    hide Owners, IsOwner, UpsertMember, NobodyNamed, Lower, Within;
  }

  // ----- getting from one state to another -----

  /** Some sequence of actions, none of them an addition by the host, leads from `s` to `s'`. */
  ghost predicate LeadsTo(s: State, s': State) {
    exists acts: seq<Action> :: Leads(s, acts, s')
  }

  ghost predicate Leads(s: State, acts: seq<Action>, s': State) {
    Runs.After(Step, s, acts) == s' && forall i :: 0 <= i < |acts| ==> !acts[i].AddMember?
  }

  lemma LeadsToItself(s: State)
    ensures LeadsTo(s, s)
  {
    assert Leads(s, [], s);
  }

  lemma ThenStep(s: State, s1: State, a: Action, s2: State)
    requires LeadsTo(s, s1) && !a.AddMember? && s2 == Step(s1, a)
    ensures LeadsTo(s, s2)
  {
    hide Step;
    var acts: seq<Action> :| Leads(s, acts, s1);
    assert (acts + [a])[..|acts|] == acts;
    assert Leads(s, acts + [a], s2);
  }

  lemma ThenLeads(s: State, s1: State, s2: State)
    requires LeadsTo(s, s1) && LeadsTo(s1, s2)
    ensures LeadsTo(s, s2)
  {
    var a: seq<Action>, b: seq<Action> :| Leads(s, a, s1) && Leads(s1, b, s2);
    Runs.AfterBoth(Step, s, a, b);
    assert Leads(s, a + b, s2);
  }

  lemma ReachedThen(run: seq<Action>, s: State, rest: seq<Action>, s': State)
    requires Reached(run, s) && Leads(s, rest, s')
    ensures Reached(run + rest, s')
  {
    ReachedIsRun(run, s);
    Runs.AfterBoth(Step, START, run, rest);
    ReachedIsRun(run + rest, s');
  }

  // ----- pieces of runs -----

  function WithCreation(s: State, pid: nat, org: Id, user: Id, slug: string): State {
    s.(t := SeedDefaultRoles(s.t.(orgs := s.t.orgs[org := Organization(slug, user)]), org),
       procs := s.procs[pid := Creating(org, user, [], 1)])
  }

  /** A creation up to its catalog. */
  lemma CreationBegins(s: State, pid: nat, org: Id, user: Id, slug: string)
    requires pid !in s.procs && InsertOrg(s.t, org, Organization(slug, user)).Some?
    ensures LeadsTo(s, WithCreation(s, pid, org, user, slug))
  {
    LeadsToItself(s);
    var s1 := Step(s, BeginCreate(pid, org, user, slug, []));
    ThenStep(s, s, BeginCreate(pid, org, user, slug, []), s1);
    assert Step(s1, Continue(pid, false, 0)).procs == s.procs[pid := Creating(org, user, [], 1)];
    ThenStep(s, s1, Continue(pid, false, 0), WithCreation(s, pid, org, user, slug));
  }

  function WithOwner(s: State, pid: nat, org: Id, user: Id): State {
    s.(t := s.t.(members := s.t.members[(org, user) := Membership("owner", Active, None, None)]),
       created := s.created[org := user], joined := s.joined - {(org, user)}, procs := s.procs - {pid})
  }

  /** The rest of it. */
  lemma CreationEnds(s: State, pid: nat, org: Id, user: Id)
    requires pid in s.procs && s.procs[pid] == Creating(org, user, [], 1) && org in s.t.orgs
    requires (org, user) in s.t.members ==> s.t.members[(org, user)].dept.None? && s.t.members[(org, user)].level.None?
    ensures LeadsTo(s, WithOwner(s, pid, org, user))
  {
    LeadsToItself(s);
    assert SeedExtraRoles(s.t, org, []) == s.t;
    var s1 := Goto(s, pid, Creating(org, user, [], 2));
    ThenStep(s, s, Continue(pid, false, 0), s1);
    assert Step(s1, Continue(pid, false, 0)).procs == s.procs - {pid};
    ThenStep(s, s1, Continue(pid, false, 0), WithOwner(s, pid, org, user));
  }

  function Invited(s: State, inv: Id, org: Id, role: string): State {
    s.(t := s.t.(invites := s.t.invites[inv := Invite(org, role, 0, false, false, None, None)]))
  }

  /** The platform invites somebody. */
  lemma Inviting(s: State, pid: nat, inv: Id, org: Id, role: string)
    requires pid !in s.procs && inv !in s.t.invites && org in s.t.orgs && (org, role) in s.t.roles
    requires Normalize(role) == role && role != "" && role != "owner"
    ensures LeadsTo(s, Invited(s, inv, org, role))
  {
    LeadsToItself(s);
    var i := Invite(org, role, 0, false, false, None, None);
    assert InviteRole("", role) == role;
    hide InviteRole, Lower, Normalize;
    var s1, s2, s3 := Goto(s, pid, Sending(i, None, CheckSender)), Goto(s, pid, Sending(i, None, CheckCatalog)), Goto(s, pid, Sending(i, None, Store));
    ThenStep(s, s, BeginSend(pid, org, None, "", role, 0, None, None), s1);
    ThenStep(s, s1, Continue(pid, false, inv), s2);
    ThenStep(s, s2, Continue(pid, false, inv), s3);
    assert s3.procs - {pid} == s.procs;
    ThenStep(s, s3, Continue(pid, false, inv), Invited(s, inv, org, role));
  }

  function Joined(s: State, inv: Id, user: Id): State
    requires inv in s.t.invites
  {
    var i := s.t.invites[inv];
    s.(t := s.t.(members := s.t.members[(i.org, user) := Membership(i.role, Active, None, None)], invites := s.t.invites[inv := i.(accepted := true)]),
       joined := s.joined + {(i.org, user)})
  }

  /** A new member accepts it. */
  lemma Joining(s: State, pid: nat, inv: Id, user: Id)
    requires pid !in s.procs && inv in s.t.invites && Acceptable(s.t, inv, 0)
    requires var i := s.t.invites[inv]; i.org in s.t.orgs && i.dept.None? && i.level.None? && (i.org, user) !in s.t.members
    ensures LeadsTo(s, Joined(s, inv, user))
  {
    LeadsToItself(s);
    hide LeadsTo;
    var i := s.t.invites[inv];
    var s1, s2 := Goto(s, pid, Accepting(inv, i, user, CheckDept)), Goto(s, pid, Accepting(inv, i, user, CheckLevel(None)));
    var s3 := Goto(s, pid, Accepting(inv, i, user, Join(None, None)));
    ThenStep(s, s, BeginAccept(pid, inv, user, 0), s1);
    ThenStep(s, s1, Continue(pid, false, 0), s2);
    ThenStep(s, s2, Continue(pid, false, 0), s3);
    JoiningWrites(s, pid, inv, user);
    ThenLeads(s, s3, Joined(s, inv, user));
  }

  lemma JoiningWrites(s: State, pid: nat, inv: Id, user: Id)
    requires pid !in s.procs && inv in s.t.invites && Acceptable(s.t, inv, 0)
    requires var i := s.t.invites[inv]; i.org in s.t.orgs && (i.org, user) !in s.t.members
    ensures LeadsTo(Goto(s, pid, Accepting(inv, s.t.invites[inv], user, Join(None, None))), Joined(s, inv, user))
  {
    var i := s.t.invites[inv];
    var s3 := Goto(s, pid, Accepting(inv, i, user, Join(None, None)));
    var s4 := Goto(s.(t := s.t.(members := s.t.members[(i.org, user) := Membership(i.role, Active, None, None)]), joined := s.joined + {(i.org, user)}),
                   pid, Accepting(inv, i, user, Mark));
    LeadsToItself(s3);
    hide LeadsTo;
    ThenStep(s3, s3, Continue(pid, false, 0), s4);
    assert s4.procs - {pid} == s.procs;
    ThenStep(s3, s4, Continue(pid, false, 0), Joined(s, inv, user));
  }

  function Removing(s: State, pid: nat, org: Id, actor: Id, target: Id): State {
    s.(procs := s.procs[pid := Changing(org, actor, target, None, org in s.created, Write)])
  }

  /** A removal up to its last statement. */
  lemma RemovalDecided(s: State, pid: nat, org: Id, actor: Id, target: Id)
    requires pid !in s.procs && org in s.t.orgs && IsActive(s.t, org, actor) && IsActive(s.t, org, target)
    requires MemberRoleDecision(s.t.members[(org, actor)].role, s.t.members[(org, target)].role, "", OwnerCount(s.t, org)).None?
    ensures LeadsTo(s, Removing(s, pid, org, actor, target))
  {
    LeadsToItself(s);
    hide MemberRoleDecision, OwnerCount;
    var a, r := s.t.members[(org, actor)].role, s.t.members[(org, target)].role;
    var begun := Changing(org, actor, target, None, false, ReadActor);
    var s1, s2 := Goto(s, pid, begun), Goto(s, pid, begun.(changing := ReadTarget(a)));
    var s3 := Goto(s, pid, begun.(changing := CountOwners(a, r), seen := org in s.created));
    ThenStep(s, s, BeginRemove(pid, org, actor, target), s1);
    ThenStep(s, s1, Continue(pid, false, 0), s2);
    ThenStep(s, s2, Continue(pid, false, 0), s3);
    ThenStep(s, s3, Continue(pid, false, 0), Removing(s, pid, org, actor, target));
  }

  // ----- two owners -----

  /** From every reached state with two owners: each may remove the other on what it read before, and then
      nobody is left. */
  lemma TwoOwnersCanLoseBoth(run: seq<Action>, s: State, org: Id, a: Id, b: Id, p: nat, q: nat)
    requires Reached(run, s) && org in s.t.orgs && Owners(s.t, org) == {a, b} && a != b
    requires p !in s.procs && q !in s.procs && p != q
    ensures exists rest, s' :: Leads(s, rest, s') && Reached(run + rest, s') && Owners(s'.t, org) == {}
  {
    var s' := CrossedRemovals(s, org, a, b, p, q);
    var rest: seq<Action> :| Leads(s, rest, s');
    ReachedThen(run, s, rest, s');
  }

  lemma CrossedRemovals(s: State, org: Id, a: Id, b: Id, p: nat, q: nat) returns (s': State)
    requires org in s.t.orgs && Owners(s.t, org) == {a, b} && a != b && p !in s.procs && q !in s.procs && p != q
    ensures LeadsTo(s, s') && Owners(s'.t, org) == {}
  {
    TwoOwnersDecide(s.t, org, a, b);
    hide LeadsTo, MemberRoleDecision, Owners;
    var s1 := Removing(s, p, org, a, b);
    RemovalDecided(s, p, org, a, b);
    var s2 := Removing(s1, q, org, b, a);
    RemovalDecided(s1, q, org, b, a);
    ThenLeads(s, s1, s2);
    s' := BothWrite(s2, org, a, b, p, q);
    ThenLeads(s, s2, s');
    NobodyAfterBoth(s.t, org, a, b);
  }

  lemma BothWrite(s: State, org: Id, a: Id, b: Id, p: nat, q: nat) returns (s': State)
    requires p in s.procs && q in s.procs && p != q
    requires s.procs[p] == Changing(org, a, b, None, org in s.created, Write) && s.procs[q] == Changing(org, b, a, None, org in s.created, Write)
    ensures LeadsTo(s, s') && s'.t == RemoveRow(RemoveRow(s.t, org, b), org, a)
  {
    LeadsToItself(s);
    hide LeadsTo, RemoveRow;
    var s1 := Step(s, Continue(p, false, 0));
    ThenStep(s, s, Continue(p, false, 0), s1);
    s' := Step(s1, Continue(q, false, 0));
    ThenStep(s, s1, Continue(q, false, 0), s');
  }

  lemma TwoOwnersDecide(t: Tables, org: Id, a: Id, b: Id)
    requires Owners(t, org) == {a, b} && a != b
    ensures IsActive(t, org, a) && IsActive(t, org, b) && OwnerCount(t, org) == 2
    ensures MemberRoleDecision(t.members[(org, a)].role, t.members[(org, b)].role, "", 2).None?
    ensures MemberRoleDecision(t.members[(org, b)].role, t.members[(org, a)].role, "", 2).None?
  {
    OwnerIsCounted(t, org, a);
    OwnerIsCounted(t, org, b);
    FoldedOwnerIsOwner(t.members[(org, a)].role);
    FoldedOwnerIsOwner(t.members[(org, b)].role);
    DecisionTable(t.members[(org, a)].role, t.members[(org, b)].role, "", 2);
    DecisionTable(t.members[(org, b)].role, t.members[(org, a)].role, "", 2);
  }

  lemma NobodyAfterBoth(t: Tables, org: Id, a: Id, b: Id)
    requires Owners(t, org) == {a, b}
    ensures Owners(RemoveRow(RemoveRow(t, org, b), org, a), org) == {}
  {
    var t' := RemoveRow(RemoveRow(t, org, b), org, a);
    forall u | u in Owners(t', org) ensures false {
      OwnerIsCounted(t', org, u);
      OwnerIsCounted(t, org, u);
    }
  }

  /** The host names a second owner, both owners remove each other at once, and nobody owns the
      organization. */
  ghost predicate BothLost(run: seq<Action>, s: State, rest: seq<Action>, s': State) {
    Reached(run, s) && |Owners(s.t, 0)| == 2 && Leads(s, rest, s') && Reached(run + rest, s') && Owners(s'.t, 0) == {}
  }

  lemma HostNamedOwnersCanLoseBoth()
    ensures exists run, s, rest, s' :: BothLost(run, s, rest, s')
  {
    var run, s := SecondOwner();
    TwoOwnersCanLoseBoth(run, s, 0, 0, 1, 0, 1);
    var rest: seq<Action>, s' :| Leads(s, rest, s') && Reached(run + rest, s') && Owners(s'.t, 0) == {};
    assert |{0, 1}| == 2;
    assert BothLost(run, s, rest, s');
  }

  function Created(): State {
    WithOwner(WithCreation(START, 0, 0, 0, "a"), 0, 0, 0)
  }

  lemma CreatedIsReached() returns (run: seq<Action>)
    ensures Leads(START, run, Created()) && Reached(run, Created())
  {
    CreationBegins(START, 0, 0, 0, "a");
    CreationEnds(WithCreation(START, 0, 0, 0, "a"), 0, 0, 0);
    ThenLeads(START, WithCreation(START, 0, 0, 0, "a"), Created());
    run :| Leads(START, run, Created());
    ReachedIsRun(run, Created());
  }

  lemma SecondOwner() returns (run: seq<Action>, s: State)
    ensures Reached(run, s) && 0 in s.t.orgs && Owners(s.t, 0) == {0, 1} && s.procs == map[]
  {
    var first := CreatedIsReached();
    var add := AddMember(0, 1, "owner", None, None);
    run, s := first + [add], Step(Created(), add);
    assert run[..|first|] == first;
    ReachedIsRun(first, Created());
    ReachedIsRun(run, s);
    NamingAnOwner(s);
  }

  lemma NamingAnOwner(s: State)
    requires s == Step(Created(), AddMember(0, 1, "owner", None, None))
    ensures 0 in s.t.orgs && Owners(s.t, 0) == {0, 1} && s.procs == map[]
  {
    assert Lower("owner") == "owner" && Normalize("owner") == "owner";
    assert (0, 1) != (0, 0);
    assert s.t.members == map[(0, 0) := Membership("owner", Active, None, None), (0, 1) := Membership("owner", Active, None, None)];
    assert s.procs == map[] && 0 in s.t.orgs;
    BothOwn(s.t);
  }

  lemma BothOwn(t: Tables)
    requires t.members == map[(0, 0) := Membership("owner", Active, None, None), (0, 1) := Membership("owner", Active, None, None)]
    ensures Owners(t, 0) == {0, 1}
  {
    assert Lower("owner") == "owner";
    forall u ensures u in Owners(t, 0) <==> u in {0, 1} {
      OwnerIsCounted(t, 0, u);
    }
  }

  // ----- the creator alone -----

  /** In the state after `run` the only owner accepts an invitation, and nobody owns the organization. */
  ghost predicate LocksOut(run: seq<Action>, s: State, inv: Id, user: Id, now: int) {
    && Reached(run, s) && AcceptInvite(s.t, inv, user, now).Some?
    && Owners(s.t, s.t.invites[inv].org) == {user}
    && Owners(AcceptInvite(s.t, inv, user, now).value, s.t.invites[inv].org) == {}
  }

  lemma SoleOwnerCanLockOut()
    ensures exists run, s, inv, user, now :: LocksOut(run, s, inv, user, now)
  {
    var run, s := CreatorInvited();
    CreatorAlone(s);
    hide Invited, Created;
    OwnersAreTheCreator(run, s, 0);
    OwnerIsCounted(s.t, 0, 0);
    assert forall other: Id :: other != 0 ==> !IsOwner(s.t, 0, other);
    assert AcceptInvite(s.t, 0, 0, 0).Some?;
    AcceptKeepsAnOwnerIff(run, s, 0, 0, 0);
    hide Owners, AcceptInvite;
    assert LocksOut(run, s, 0, 0, 0);
  }

  lemma CreatorInvited() returns (run: seq<Action>, s: State)
    ensures Reached(run, s) && forall i :: 0 <= i < |run| ==> !run[i].AddMember?
    ensures s == Invited(Created(), 0, 0, "member")
  {
    var first := CreatedIsReached();
    s := Invited(Created(), 0, 0, "member");
    MemberIsInvited();
    var rest: seq<Action> :| Leads(Created(), rest, s);
    ReachedThen(first, Created(), rest, s);
    run := first + rest;
    hide Created, Step;
    assert forall i :: 0 <= i < |run| ==> run[i] == if i < |first| then first[i] else rest[i - |first|];
  }

  lemma MemberIsInvited()
    ensures LeadsTo(Created(), Invited(Created(), 0, 0, "member"))
  {
    assert Normalize("member") == "member" && "member" != "owner";
    Inviting(Created(), 0, 0, 0, "member");
  }

  lemma CreatorAlone(s: State)
    requires s == Invited(Created(), 0, 0, "member")
    ensures s.created == map[0 := 0] && s.joined == {} && s.overtaken == {} && 0 in s.t.orgs
    ensures s.t.members == map[(0, 0) := Membership("owner", Active, None, None)]
    ensures s.t.invites == map[0 := Invite(0, "member", 0, false, false, None, None)]
  {
  }

  /** The organization is complete, its creator has not accepted anything since, and nobody owns it. */
  ghost predicate Overtakes(run: seq<Action>, s: State, org: Id) {
    && Reached(run, s) && (forall i :: 0 <= i < |run| ==> !run[i].AddMember?)
    && org in s.created && (org, s.created[org]) !in s.joined && Owners(s.t, org) == {}
  }

  /** The other exception is real too: an admin removes the creator, who is a plain member until the
      creation completes, and the removal's write comes after it. */
  lemma CreatorCanBeOvertaken()
    ensures exists run, s, org :: Overtakes(run, s, org)
  {
    var s2 := RemovalUnderWay();
    var s3 := WithOwner(s2, 0, 0, 0);
    CreationEnds(s2, 0, 0, 0);
    ThenLeads(START, s2, s3);
    var s := Step(s3, Continue(1, false, 0));
    LateRemoval(s2, s3, s);
    ThenStep(START, s3, Continue(1, false, 0), s);
    hide Step, Owners, WithOwner;
    var run: seq<Action> :| Leads(START, run, s);
    ReachedIsRun(run, s);
    OwnersAreTheCreator(run, s, 0);
    assert Overtakes(run, s, 0);
  }

  /** The creation is not complete and the removal of its user has only its write left. */
  ghost predicate UnderWay(s: State) {
    && 0 in s.procs && s.procs[0] == Creating(0, 0, [], 1) && 1 in s.procs && s.procs[1] == Changing(0, 1, 0, None, false, Write)
    && 0 in s.t.orgs && s.created == map[] && s.overtaken == {}
    && ((0, 0) in s.t.members ==> s.t.members[(0, 0)].dept.None? && s.t.members[(0, 0)].level.None?)
  }

  lemma LateRemoval(s2: State, s3: State, s: State)
    requires UnderWay(s2) && s3 == WithOwner(s2, 0, 0, 0) && s == Step(s3, Continue(1, false, 0))
    ensures s.created == map[0 := 0] && s.overtaken == {0} && (0, 0) !in s.joined
  {
    assert s3.procs[1] == s2.procs[1];
    hide Overwrite;
  }

  lemma RemovalUnderWay() returns (s2: State)
    ensures LeadsTo(START, s2) && UnderWay(s2)
  {
    var s0 := WithCreation(START, 0, 0, 0, "a");
    CreationBegins(START, 0, 0, 0, "a");
    var s1 := MembersJoin(s0);
    hide LeadsTo;
    ThenLeads(START, s0, s1);
    s2 := AdminRemoves(s1);
    ThenLeads(START, s1, s2);
  }

  lemma AdminRemoves(s: State) returns (s': State)
    requires 0 in s.t.orgs && s.created == map[] && s.overtaken == {} && s.procs == map[0 := Creating(0, 0, [], 1)]
    requires s.t.members == map[(0, 1) := Membership("admin", Active, None, None), (0, 0) := Membership("member", Active, None, None)]
    ensures LeadsTo(s, s') && UnderWay(s')
  {
    hide LeadsTo;
    AdminMayRemoveMember(OwnerCount(s.t, 0));
    hide MemberRoleDecision, OwnerCount;
    s' := Removing(s, 1, 0, 1, 0);
    RemovalDecided(s, 1, 0, 1, 0);
  }

  lemma AdminMayRemoveMember(owners: nat)
    ensures MemberRoleDecision("admin", "member", "", owners).None?
  {
    assert Normalize("admin") == "admin" && Normalize("member") == "member" && Normalize("") == "";
  }

  /** User 1 joins as admin, user 0 as member. */
  lemma MembersJoin(s: State) returns (s': State)
    requires s == WithCreation(START, 0, 0, 0, "a")
    ensures LeadsTo(s, s') && s' == s.(t := s'.t, joined := {(0, 1), (0, 0)})
    ensures s'.t.orgs == s.t.orgs && s'.t.roles == s.t.roles
    ensures s'.t.members == map[(0, 1) := Membership("admin", Active, None, None), (0, 0) := Membership("member", Active, None, None)]
  {
    assert Normalize("admin") == "admin" && Normalize("member") == "member";
    var s1 := Invited(s, 0, 0, "admin");
    Inviting(s, 1, 0, 0, "admin");
    var s2 := Joined(s1, 0, 1);
    Joining(s1, 1, 0, 1);
    ThenLeads(s, s1, s2);
    var s3 := Invited(s2, 1, 0, "member");
    Inviting(s2, 1, 1, 0, "member");
    ThenLeads(s, s2, s3);
    s' := Joined(s3, 1, 0);
    Joining(s3, 1, 1, 0);
    ThenLeads(s, s3, s');
  }

  // ----- operations that nothing interrupts -----

  /** The process carries out `n` statements, none of which fails; `id` is the id it draws for a new row. */
  function Continues(s: State, pid: nat, id: Id, n: nat): State
    decreases n
  {
    if n == 0 then s else Continues(Step(s, Continue(pid, false, id)), pid, id, n - 1)
  }

  lemma {:induction false} NothingLeft(s: State, pid: nat, id: Id, n: nat)
    requires pid !in s.procs
    ensures Continues(s, pid, id, n) == s
  {
    if n > 0 {
      NothingLeft(s, pid, id, n - 1);
    }
  }

  /** The whole operation as one step, on which the last-owner rule is proved. */
  function Whole(t: Tables, org: Id, actor: Id, target: Id, next: Option<string>): Option<Tables> {
    match next
    case Some(role) => ChangeRole(t, org, actor, target, role)
    case None => RemoveMember(t, org, actor, target)
  }

  function Begins(pid: nat, org: Id, actor: Id, target: Id, next: Option<string>): Action {
    match next
    case Some(role) => BeginChange(pid, org, actor, target, role)
    case None => BeginRemove(pid, org, actor, target)
  }

  function Called(org: Id, actor: Id, target: Id, next: Option<string>): Proc {
    Changing(org, actor, target, if next.Some? then Some(Normalize(next.value)) else None, false, ReadActor)
  }

  lemma ReadsBoth(s: State, pid: nat, p: Proc) returns (p1: Proc, p2: Proc)
    requires p.Changing? && p.changing.ReadActor? && IsActive(s.t, p.org, p.actor) && IsActive(s.t, p.org, p.target)
    ensures Step(Goto(s, pid, p), Continue(pid, false, 0)) == Goto(s, pid, p1)
    ensures Step(Goto(s, pid, p1), Continue(pid, false, 0)) == Goto(s, pid, p2)
    ensures p2 == p.(changing := CountOwners(s.t.members[(p.org, p.actor)].role, s.t.members[(p.org, p.target)].role), seen := p.org in s.created)
  {
    p1 := p.(changing := ReadTarget(s.t.members[(p.org, p.actor)].role));
    p2 := p.(changing := CountOwners(s.t.members[(p.org, p.actor)].role, s.t.members[(p.org, p.target)].role), seen := p.org in s.created);
  }

  lemma DecidesAlone(s: State, pid: nat, org: Id, actor: Id, target: Id, next: Option<string>)
    requires pid !in s.procs && IsActive(s.t, org, actor) && IsActive(s.t, org, target)
    ensures Continues(Goto(s, pid, Called(org, actor, target, next)), pid, 0, 5) ==
      match Whole(s.t, org, actor, target, next) case None => s case Some(t) => s.(t := t)
  {
    var p := Called(org, actor, target, next);
    var p1, p2 := ReadsBoth(s, pid, p);
    hide Normalize, Continues, Whole, Step, Goto;
    FirstOf(Goto(s, pid, p), pid, 0, 4);
    FirstOf(Goto(s, pid, p1), pid, 0, 3);
    WritesAlone(s, pid, p2, next);
  }

  lemma WritesAlone(s: State, pid: nat, p: Proc, next: Option<string>)
    requires pid !in s.procs && p.Changing? && p.changing.CountOwners? && IsActive(s.t, p.org, p.actor) && IsActive(s.t, p.org, p.target)
    requires p.changing == CountOwners(s.t.members[(p.org, p.actor)].role, s.t.members[(p.org, p.target)].role)
    requires p.seen == (p.org in s.created) && p.next == Called(p.org, p.actor, p.target, next).next
    ensures Continues(Goto(s, pid, p), pid, 0, 3) ==
      match Whole(s.t, p.org, p.actor, p.target, next) case None => s case Some(t) => s.(t := t)
  {
    hide MemberRoleDecision, OwnerCount, Normalize, Continues;
    FirstOf(Goto(s, pid, p), pid, 0, 2);
    if MemberRoleDecision(p.changing.actorRole, p.changing.targetRole, Asked(p.next), OwnerCount(s.t, p.org)).Some? {
      assert Step(Goto(s, pid, p), Continue(pid, false, 0)) == s;
      NothingLeft(s, pid, 0, 2);
    } else if next.None? {
      var p' := p.(changing := Write);
      assert Step(Goto(s, pid, p), Continue(pid, false, 0)) == Goto(s, pid, p');
      WritesNow(s, pid, p', 1);
    } else {
      var p' := p.(changing := CheckRole);
      assert Step(Goto(s, pid, p), Continue(pid, false, 0)) == Goto(s, pid, p');
      ChecksRole(s, pid, p');
    }
  }

  lemma FirstOf(s: State, pid: nat, id: Id, n: nat)
    ensures Continues(s, pid, id, n + 1) == Continues(Step(s, Continue(pid, false, id)), pid, id, n)
  {
  }

  lemma WritesNow(s: State, pid: nat, p: Proc, n: nat)
    requires pid !in s.procs && p.Changing? && p.changing.Write? && p.seen == (p.org in s.created)
    ensures Continues(Goto(s, pid, p), pid, 0, n + 1) == s.(t := Overwrite(s.t, p.org, p.target, p.next))
  {
    hide Overwrite;
    var written := s.(t := Overwrite(s.t, p.org, p.target, p.next));
    assert Step(Goto(s, pid, p), Continue(pid, false, 0)) == written;
    NothingLeft(written, pid, 0, n);
  }

  lemma ChecksRole(s: State, pid: nat, p: Proc)
    requires pid !in s.procs && p.Changing? && p.changing.CheckRole? && p.seen == (p.org in s.created)
    ensures Continues(Goto(s, pid, p), pid, 0, 2) ==
      if Asked(p.next) != "" && (p.org, Asked(p.next)) in s.t.roles then s.(t := Overwrite(s.t, p.org, p.target, p.next)) else s
  {
    hide Overwrite, Asked, Continues;
    FirstOf(Goto(s, pid, p), pid, 0, 1);
    if Asked(p.next) != "" && (p.org, Asked(p.next)) in s.t.roles {
      assert Step(Goto(s, pid, p), Continue(pid, false, 0)) == Goto(s, pid, p.(changing := Write));
      WritesNow(s, pid, p.(changing := Write), 0);
    } else {
      assert Step(Goto(s, pid, p), Continue(pid, false, 0)) == s;
      NothingLeft(s, pid, 0, 1);
    }
  }

  /** Carried out with nothing in between, the statements of a change or removal are the whole operation. */
  lemma UninterruptedChange(s: State, pid: nat, org: Id, actor: Id, target: Id, next: Option<string>)
    requires pid !in s.procs && org in s.t.orgs
    ensures Continues(Step(s, Begins(pid, org, actor, target, next)), pid, 0, 5) ==
      match Whole(s.t, org, actor, target, next) case None => s case Some(t) => s.(t := t)
  {
    hide MemberRoleDecision, OwnerCount, Normalize, Overwrite, Continues;
    var p := Called(org, actor, target, next);
    var s0 := Goto(s, pid, p);
    assert Step(s, Begins(pid, org, actor, target, next)) == s0;
    if IsActive(s.t, org, actor) && IsActive(s.t, org, target) {
      DecidesAlone(s, pid, org, actor, target, next);
    } else {
      FirstOf(s0, pid, 0, 4);
      if !IsActive(s.t, org, actor) {
        assert Step(s0, Continue(pid, false, 0)) == s;
        NothingLeft(s, pid, 0, 4);
      } else {
        var s1 := Goto(s, pid, p.(changing := ReadTarget(s.t.members[(org, actor)].role)));
        assert Step(s0, Continue(pid, false, 0)) == s1;
        FirstOf(s1, pid, 0, 3);
        assert Step(s1, Continue(pid, false, 0)) == s;
        NothingLeft(s, pid, 0, 3);
      }
    }
  }

  /** The same for an acceptance. */
  lemma UninterruptedAcceptance(s: State, pid: nat, inv: Id, user: Id, now: int)
    requires pid !in s.procs && Acceptable(s.t, inv, now)
    ensures Continues(Step(s, BeginAccept(pid, inv, user, now)), pid, 0, 4) ==
      match AcceptInvite(s.t, inv, user, now)
      case None => s
      case Some(t) => s.(t := t, joined := s.joined + {(s.t.invites[inv].org, user)})
  {
    var p := Accepting(inv, s.t.invites[inv], user, CheckDept);
    var p1, p2 := LooksUpBoth(s, pid, p);
    JoinsAlone(s, pid, p2);
    hide Step, Goto, Continues, UpsertMember, Within;
    FirstOf(Goto(s, pid, p), pid, 0, 3);
    FirstOf(Goto(s, pid, p1), pid, 0, 2);
    BeginsToAccept(s, pid, inv, user, now);
  }

  lemma BeginsToAccept(s: State, pid: nat, inv: Id, user: Id, now: int)
    requires pid !in s.procs && Acceptable(s.t, inv, now)
    ensures Step(s, BeginAccept(pid, inv, user, now)) == Goto(s, pid, Accepting(inv, s.t.invites[inv], user, CheckDept))
  {
  }

  lemma LooksUpBoth(s: State, pid: nat, p: Proc) returns (p1: Proc, p2: Proc)
    requires p.Accepting? && p.accepting.CheckDept?
    ensures Step(Goto(s, pid, p), Continue(pid, false, 0)) == Goto(s, pid, p1)
    ensures Step(Goto(s, pid, p1), Continue(pid, false, 0)) == Goto(s, pid, p2)
    ensures p2 == p.(accepting := Join(Within(s.t.depts, p.read.dept, p.read.org), Within(s.t.levels, p.read.level, p.read.org)))
  {
    hide Within;
    p1 := p.(accepting := CheckLevel(Within(s.t.depts, p.read.dept, p.read.org)));
    p2 := p.(accepting := Join(Within(s.t.depts, p.read.dept, p.read.org), Within(s.t.levels, p.read.level, p.read.org)));
  }

  lemma JoinsAlone(s: State, pid: nat, p: Proc)
    requires pid !in s.procs && p.Accepting? && p.accepting.Join?
    requires p.inv in s.t.invites && p.read == s.t.invites[p.inv] && !p.read.accepted && !p.read.revoked
    ensures Continues(Goto(s, pid, p), pid, 0, 2) ==
      match UpsertMember(s.t, p.read.org, p.user, p.read.role, p.accepting.dept, p.accepting.level)
      case None => s
      case Some(t) => s.(t := AcceptRow(t, p.inv).value, joined := s.joined + {(p.read.org, p.user)})
  {
  }

  /** The same for a creation: the catalog, then the owner. */
  lemma UninterruptedCreation(s: State, pid: nat, org: Id, user: Id, slug: string, names: seq<string>)
    requires pid !in s.procs && InsertOrg(s.t, org, Organization(slug, user)).Some?
    ensures Continues(Step(s, BeginCreate(pid, org, user, slug, names)), pid, 0, 3).t == CreateOrg(s.t, org, user, slug, names, 4)
  {
    var t0 := InsertOrg(s.t, org, Organization(slug, user)).value;
    hide SeedDefaultRoles, SeedExtraRoles, UpsertMember, Continues, StepCreating;
    var p := Creating(org, user, names, 0);
    assert Step(s, BeginCreate(pid, org, user, slug, names)) == Goto(s.(t := t0), pid, p);
    var t1 := SeedDefaultRoles(t0, org);
    var t2 := SeedExtraRoles(t1, org, names);
    CreateStep(s.(t := t0), pid, p);
    CreateStep(s.(t := t1), pid, p.(step := 1));
    CreateStep(s.(t := t2), pid, p.(step := 2));
    hide Step, Goto;
    FirstOf(Goto(s.(t := t0), pid, p), pid, 0, 2);
    FirstOf(Goto(s.(t := t1), pid, p.(step := 1)), pid, 0, 1);
    FirstOf(Goto(s.(t := t2), pid, p.(step := 2)), pid, 0, 0);
    Nothing(Step(Goto(s.(t := t2), pid, p.(step := 2)), Continue(pid, false, 0)), pid);
  }

  lemma Nothing(s: State, pid: nat)
    ensures Continues(s, pid, 0, 0) == s
  {
  }

  lemma CreateStep(s: State, pid: nat, p: Proc)
    requires p.Creating?
    ensures var s' := Step(Goto(s, pid, p), Continue(pid, false, 0));
      if p.step == 0 then s' == Goto(s.(t := SeedDefaultRoles(s.t, p.org)), pid, p.(step := 1))
      else if p.step == 1 then s' == Goto(s.(t := SeedExtraRoles(s.t, p.org, p.names)), pid, p.(step := 2))
      else s'.t == match UpsertMember(s.t, p.org, p.user, "owner", None, None) case None => s.t case Some(t) => t
  {
    hide SeedDefaultRoles, SeedExtraRoles, UpsertMember;
  }

  /** One statement of a sending; the process is the only thing that was added to the state. */
  lemma SendStep(s: State, pid: nat, p: Proc, id: Id)
    requires pid !in s.procs && p.Sending? && id !in s.t.invites
    ensures var i := p.invite; var s' := Step(Goto(s, pid, p), Continue(pid, false, id));
      match p.sending
      case CheckSender =>
        s' == if p.sender.Some? ==> IsActive(s.t, i.org, p.sender.value) && Lower(s.t.members[(i.org, p.sender.value)].role) in {"owner", "admin"}
              then Goto(s, pid, p.(sending := CheckCatalog)) else s
      case CheckCatalog => s' == if (i.org, i.role) in s.t.roles && i.role != "owner" then Goto(s, pid, p.(sending := Store)) else s
      case Store => s' == s.(t := s.t.(invites := s.t.invites[id := i]))
  {
    hide Lower;
    assert End(Goto(s, pid, p), pid) == s;
  }

  /** And for an invitation: it is stored exactly when the sender may and the role is one to invite for. */
  lemma UninterruptedInvitation(s: State, pid: nat, org: Id, sender: Option<Id>, defaultRole: string, role: string, expiresAt: int,
                                dept: Option<Id>, level: Option<Id>, id: Id)
    requires pid !in s.procs && org in s.t.orgs && id !in s.t.invites
    ensures var i := Invite(org, InviteRole(defaultRole, role), expiresAt, false, false, dept, level);
      Continues(Step(s, BeginSend(pid, org, sender, defaultRole, role, expiresAt, dept, level)), pid, id, 3) ==
        if Invitable(s.t, org, sender, i.role) then s.(t := s.t.(invites := s.t.invites[id := i])) else s
  {
    hide InviteRole, Lower, StepSending, Continues;
    var i := Invite(org, InviteRole(defaultRole, role), expiresAt, false, false, dept, level);
    var p := Sending(i, sender, CheckSender);
    assert Step(s, BeginSend(pid, org, sender, defaultRole, role, expiresAt, dept, level)) == Goto(s, pid, p);
    SendStep(s, pid, p, id);
    SendStep(s, pid, p.(sending := CheckCatalog), id);
    SendStep(s, pid, p.(sending := Store), id);
    hide Step, Goto;
    FirstOf(Goto(s, pid, p), pid, id, 2);
    FirstOf(Goto(s, pid, p.(sending := CheckCatalog)), pid, id, 1);
    FirstOf(Goto(s, pid, p.(sending := Store)), pid, id, 0);
    NothingLeft(s, pid, id, 2);
    NothingLeft(s, pid, id, 1);
    NothingLeft(s.(t := s.t.(invites := s.t.invites[id := i])), pid, id, 0);
  }

  /** The host's addition: a role of the catalog, cleaned up, and the department and level of an existing row. */
  lemma HostAdds(s: State, org: Id, user: Id, role: string)
    requires org in s.t.orgs
    requires (org, user) in s.t.members ==>
      var m := s.t.members[(org, user)];
      (m.dept.Some? ==> m.dept.value in s.t.depts) && (m.level.Some? ==> m.level.value in s.t.levels)
    ensures Step(s, AddMember(org, user, role, KeptDept(s.t.members, org, user), KeptLevel(s.t.members, org, user))).t ==
      if Normalize(role) == "" || (org, Normalize(role)) !in s.t.roles then s.t
      else s.t.(members := s.t.members[(org, user) :=
        if (org, user) in s.t.members then s.t.members[(org, user)].(role := Normalize(role), status := Active)
        else Membership(Normalize(role), Active, None, None)])
  {
    hide Normalize;
  }
}
