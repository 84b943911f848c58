/** Redemption of a generic invitation across two databases, one statement at a time, interleaved with
    other redemptions, revocations and sign-ups. Forward statements may fail; rollbacks work. */
module RedeemSaga {
  import opened Prelude
  import opened Runs

  type Id = nat

  datatype Invitation = Invitation(tokenHash: Digest, email: string, role: string, expiresAt: int, redeemedBy: Option<Id>, revoked: bool)

  /** The rows a new account consists of, and the invitations. `sessions` maps a session to its user. */
  datatype Tables = Tables(users: map<Id, string>, passwords: set<Id>, sessions: map<Id, Id>,
                           profiles: set<Id>, invitations: map<Id, Invitation>)

  datatype Undo = DropPassword | DropUser | DropProfile

  datatype Stage =
    | CheckEmail | InsertUser | InsertPassword | InsertProfile | OpenSession | SignupHook | AssignRole | Mark
    | Undoing(todo: seq<Undo>)
    | Finished(ok: bool)

  /** One call of `Redeem`: the invitation it validated and the user id it drew. */
  datatype Call = Call(inv: Id, uid: Id, stage: Stage)

  /** The environment's answer to one statement: whether it fails, and the id drawn for a session. */
  datatype Env = Env(fails: bool, sid: Id)

  // ----- statements -----

  predicate Pending(i: Invitation) {
    !i.revoked && i.redeemedBy.None?
  }

  predicate EmailTaken(t: Tables, email: string) {
    exists u :: u in t.users && t.users[u] == email
  }

  /** Deleting the user row cascades to its credential and its sessions. */
  function DeleteUser(t: Tables, uid: Id): Tables {
    t.(users := t.users - {uid}, passwords := t.passwords - {uid},
       sessions := map s | s in t.sessions && t.sessions[s] != uid :: t.sessions[s])
  }

  function Apply(t: Tables, u: Undo, uid: Id): Tables {
    match u
    case DropPassword => t.(passwords := t.passwords - {uid})
    case DropUser => DeleteUser(t, uid)
    case DropProfile => t.(profiles := t.profiles - {uid})
  }

  function RevokeInvitation(t: Tables, inv: Id): Tables {
    if inv in t.invitations && Pending(t.invitations[inv]) then
      t.(invitations := t.invitations[inv := t.invitations[inv].(revoked := true)])
    else t
  }

  /** `UPDATE ... WHERE revoked_at IS NULL AND redeemed_at IS NULL`; none when no row matched. */
  function MarkRedeemed(t: Tables, inv: Id, uid: Id): Option<Tables> {
    if inv in t.invitations && Pending(t.invitations[inv]) then
      Some(t.(invitations := t.invitations[inv := t.invitations[inv].(redeemedBy := Some(uid))]))
    else None
  }

  // ----- one call -----

  const ROLLBACK_USER: seq<Undo> := [DropPassword, DropUser]
  const ROLLBACK_PROFILE_THEN_USER: seq<Undo> := [DropProfile, DropPassword, DropUser]
  const ROLLBACK_USER_THEN_PROFILE: seq<Undo> := [DropPassword, DropUser, DropProfile]

  predicate Valid(t: Tables, inv: Id, now: int) {
    inv in t.invitations && Pending(t.invitations[inv]) && now <= t.invitations[inv].expiresAt
  }

  /** The next statement of a call. */
  function Advance(t: Tables, c: Call, e: Env): (Tables, Call)
    requires c.inv in t.invitations
  {
    var i := t.invitations[c.inv];
    match c.stage
    case CheckEmail =>
      // an error of the lookup is ignored
      if !e.fails && EmailTaken(t, i.email) then (t, c.(stage := Finished(false))) else (t, c.(stage := InsertUser))
    case InsertUser =>
      if e.fails || EmailTaken(t, i.email) || c.uid in t.users then (t, c.(stage := Finished(false)))
      else (t.(users := t.users[c.uid := i.email]), c.(stage := InsertPassword))
    case InsertPassword =>
      if e.fails || c.uid !in t.users then (t, c.(stage := Undoing(ROLLBACK_USER)))
      else (t.(passwords := t.passwords + {c.uid}), c.(stage := InsertProfile))
    case InsertProfile =>
      if e.fails then (t, c.(stage := Undoing(ROLLBACK_USER)))
      else (t.(profiles := t.profiles + {c.uid}), c.(stage := OpenSession))
    case OpenSession =>
      if e.fails || e.sid in t.sessions || c.uid !in t.users then (t, c.(stage := Undoing(ROLLBACK_PROFILE_THEN_USER)))
      else (t.(sessions := t.sessions[e.sid := c.uid]), c.(stage := SignupHook))
    case SignupHook =>
      if e.fails then (t, c.(stage := Undoing(ROLLBACK_PROFILE_THEN_USER))) else (t, c.(stage := AssignRole))
    case AssignRole =>
      if i.role != "" && e.fails then (t, c.(stage := Undoing(ROLLBACK_USER_THEN_PROFILE))) else (t, c.(stage := Mark))
    case Mark =>
      if e.fails then (t, c.(stage := Undoing(ROLLBACK_USER_THEN_PROFILE)))
      else
        (match MarkRedeemed(t, c.inv, c.uid)
         case None => (t, c.(stage := Undoing(ROLLBACK_USER_THEN_PROFILE)))
         case Some(t') => (t', c.(stage := Finished(true))))
    case Undoing(todo) =>
      if todo == [] then (t, c.(stage := Finished(false)))
      else (Apply(t, todo[0], c.uid), c.(stage := Undoing(todo[1..])))
    case Finished(_) => (t, c)
  }

  // ----- any number of calls, interleaved -----

  datatype World = World(t: Tables, calls: map<nat, Call>, ids: set<Id>)

  datatype Action =
    | Issue(inv: Id, tokenHash: Digest, email: string, role: string, expiresAt: int)
    | Begin(pid: nat, inv: Id, uid: Id, now: int)
    | Continue(pid: nat, env: Env)
    | Revoke(inv: Id)
    | OtherSignup(uid: Id, email: string)

  function Step(w: World, a: Action): World {
    match a
    case Issue(inv, hash, email, role, expires) =>
      if inv in w.t.invitations then w
      else w.(t := w.t.(invitations := w.t.invitations[inv := Invitation(hash, email, role, expires, None, false)]))
    case Begin(pid, inv, uid, now) =>
      if pid in w.calls || uid in w.ids || !Valid(w.t, inv, now) then w
      else w.(calls := w.calls[pid := Call(inv, uid, CheckEmail)], ids := w.ids + {uid})
    case Continue(pid, env) =>
      if pid !in w.calls || w.calls[pid].inv !in w.t.invitations then w
      else
        var (t', c') := Advance(w.t, w.calls[pid], env);
        w.(t := t', calls := w.calls[pid := c'])
    case Revoke(inv) => w.(t := RevokeInvitation(w.t, inv))
    case OtherSignup(uid, email) =>
      if uid in w.ids || EmailTaken(w.t, email) then w
      else w.(t := w.t.(users := w.t.users[uid := email]), ids := w.ids + {uid})
  }

  /** What happens beside the redemptions: an invitation is issued under a new id, a pending one revoked, and
      an account created elsewhere with a new id takes a free address. */
  lemma OthersInterfere(w: World, a: Action)
    ensures a.Issue? && a.inv !in w.t.invitations ==>
      var i := Invitation(a.tokenHash, a.email, a.role, a.expiresAt, None, false);
      Step(w, a) == w.(t := w.t.(invitations := w.t.invitations[a.inv := i]))
    ensures a.Revoke? && a.inv in w.t.invitations && w.t.invitations[a.inv].redeemedBy == None ==>
      Step(w, a) == w.(t := w.t.(invitations := w.t.invitations[a.inv := w.t.invitations[a.inv].(revoked := true)]))
    ensures a.OtherSignup? && a.uid !in w.ids && (forall u :: u in w.t.users ==> w.t.users[u] != a.email) ==>
      Step(w, a) == w.(t := w.t.(users := w.t.users[a.uid := a.email]), ids := w.ids + {a.uid})
    ensures a.Begin? && a.pid !in w.calls && a.uid !in w.ids && a.inv in w.t.invitations ==>
      var i := w.t.invitations[a.inv];
      Step(w, a) == if !i.revoked && i.redeemedBy == None && a.now <= i.expiresAt
                    then w.(calls := w.calls[a.pid := Call(a.inv, a.uid, CheckEmail)], ids := w.ids + {a.uid}) else w
  {
  }

  const START := World(Tables(map[], {}, map[], {}, map[]), map[], {})

  function Run(run: seq<Action>): World {
    After(Step, START, run)
  }

  /** Carrying out `run` from the start leads to `w`. */
  ghost predicate Reached(run: seq<Action>, w: World) {
    Runs.Reached(Step, START, run, w)
  }

  lemma ReachedIsRun(run: seq<Action>, w: World)
    ensures Reached(run, w) <==> w == Run(run)
  {
    hide Step;
    ReachedIsAfter(Step, START, run, w);
  }

  // ----- what a call owns -----

  predicate HasSession(t: Tables, uid: Id) {
    exists s :: s in t.sessions && t.sessions[s] == uid
  }

  /** No row anywhere belongs to the user id. */
  predicate Nothing(t: Tables, uid: Id) {
    uid !in t.users && uid !in t.passwords && uid !in t.profiles && !HasSession(t, uid)
  }

  predicate Account(t: Tables, uid: Id) {
    uid in t.users && uid in t.passwords && uid in t.profiles
  }

  /** The user row has the address the invitation was sent to. */
  predicate Named(t: Tables, c: Call) {
    c.uid in t.users && c.inv in t.invitations && t.users[c.uid] == t.invitations[c.inv].email
  }

  /** Which rows exist at each stage; an undo list covers everything still there. */
  predicate Owns(t: Tables, c: Call) {
    match c.stage
    case CheckEmail => Nothing(t, c.uid)
    case InsertUser => Nothing(t, c.uid)
    case InsertPassword => Named(t, c) && c.uid !in t.passwords && c.uid !in t.profiles && !HasSession(t, c.uid)
    case InsertProfile => Named(t, c) && c.uid in t.passwords && c.uid !in t.profiles && !HasSession(t, c.uid)
    case OpenSession => Account(t, c.uid) && Named(t, c) && !HasSession(t, c.uid)
    case SignupHook => Account(t, c.uid) && Named(t, c) && HasSession(t, c.uid)
    case AssignRole => Account(t, c.uid) && Named(t, c) && HasSession(t, c.uid)
    case Mark => Account(t, c.uid) && Named(t, c) && HasSession(t, c.uid)
    case Undoing(todo) =>
      && (c.uid in t.users || c.uid in t.passwords || HasSession(t, c.uid) ==> DropUser in todo)
      && (c.uid in t.profiles ==> DropProfile in todo)
    case Finished(ok) =>
      if ok then Account(t, c.uid) && Named(t, c) && HasSession(t, c.uid) && t.invitations[c.inv].redeemedBy == Some(c.uid)
      else Nothing(t, c.uid)
  }

  /** The tables agree on everything a user id owns. */
  ghost predicate SameFor(t: Tables, t': Tables, uid: Id) {
    && (uid in t.users <==> uid in t'.users) && (uid in t.users ==> t'.users[uid] == t.users[uid])
    && (uid in t.passwords <==> uid in t'.passwords)
    && (uid in t.profiles <==> uid in t'.profiles)
    && (HasSession(t, uid) <==> HasSession(t', uid))
  }

  /** Invitations only move forward: a redeemer is never replaced. */
  ghost predicate Forward(t: Tables, t': Tables) {
    forall i :: i in t.invitations ==>
      i in t'.invitations && t'.invitations[i].email == t.invitations[i].email &&
      (t.invitations[i].redeemedBy.Some? ==> t'.invitations[i].redeemedBy == t.invitations[i].redeemedBy)
  }

  lemma OwnsIsLocal(t: Tables, t': Tables, c: Call)
    requires Owns(t, c) && SameFor(t, t', c.uid) && Forward(t, t')
    ensures Owns(t', c)
  {
  }

  lemma SessionRemains(t: Tables, t': Tables, uid: Id, other: Id, sid: Id)
    requires uid != other && t'.sessions == t.sessions[sid := uid] && sid !in t.sessions
    ensures HasSession(t', other) <==> HasSession(t, other)
  {
    if s :| s in t.sessions && t.sessions[s] == other {
      assert t'.sessions[s] == other;
    }
  }

  lemma SessionsAfterDelete(t: Tables, uid: Id, other: Id)
    ensures HasSession(DeleteUser(t, uid), other) <==> HasSession(t, other) && other != uid
  {
    if other != uid {
      if s :| s in t.sessions && t.sessions[s] == other {
        assert DeleteUser(t, uid).sessions[s] == other;
      }
    }
  }

  lemma ApplyIsLocal(t: Tables, u: Undo, uid: Id, other: Id)
    requires other != uid
    ensures SameFor(t, Apply(t, u, uid), other)
  {
    SessionsAfterDelete(t, uid, other);
  }

  /** A statement of one call touches no row of any other user. */
  lemma AdvanceIsLocal(t: Tables, c: Call, e: Env, other: Id)
    requires c.inv in t.invitations && other != c.uid
    ensures SameFor(t, Advance(t, c, e).0, other)
  {
    match c.stage
    case OpenSession =>
      if !e.fails && e.sid !in t.sessions && c.uid in t.users {
        SessionRemains(t, Advance(t, c, e).0, c.uid, other, e.sid);
      }
    case Undoing(todo) =>
      if todo != [] {
        ApplyIsLocal(t, todo[0], c.uid, other);
      }
    case _ =>
  }

  lemma AdvanceMovesForward(t: Tables, c: Call, e: Env)
    requires c.inv in t.invitations
    ensures Forward(t, Advance(t, c, e).0)
    ensures Advance(t, c, e).1.uid == c.uid && Advance(t, c, e).1.inv == c.inv
  {
  }

  lemma UndoOwns(t: Tables, c: Call, e: Env)
    requires c.inv in t.invitations && c.stage.Undoing? && Owns(t, c)
    ensures Owns(Advance(t, c, e).0, Advance(t, c, e).1)
  {
    var todo := c.stage.todo;
    if todo != [] {
      SessionsAfterDelete(t, c.uid, c.uid);
      assert forall u :: u in todo ==> u == todo[0] || u in todo[1..];
    }
  }

  lemma AdvanceOwns(t: Tables, c: Call, e: Env)
    requires c.inv in t.invitations && Owns(t, c)
    ensures Owns(Advance(t, c, e).0, Advance(t, c, e).1)
  {
    if c.stage.Undoing? {
      UndoOwns(t, c, e);
    } else if c.stage.OpenSession? && !e.fails && e.sid !in t.sessions {
      assert Advance(t, c, e).0.sessions[e.sid] == c.uid;
    }
  }

  // ----- invariant -----

  ghost predicate CallsApart(w: World) {
    && (forall p :: p in w.calls ==> w.calls[p].uid in w.ids && w.calls[p].inv in w.t.invitations)
    && (forall p, q :: p in w.calls && q in w.calls && p != q ==> w.calls[p].uid != w.calls[q].uid)
  }

  ghost predicate AllOwn(w: World) {
    && (forall p :: p in w.calls ==> Owns(w.t, w.calls[p]))
    && (forall u :: u !in w.ids ==> Nothing(w.t, u))
  }

  ghost predicate Winner(w: World, p: nat, inv: Id) {
    p in w.calls && w.calls[p].inv == inv && w.calls[p].stage == Finished(true)
  }

  /** Redeemed and revoked exclude each other, and a redemption is some call's success. */
  ghost predicate InvitationsSound(w: World) {
    forall i :: i in w.t.invitations ==>
      && !(w.t.invitations[i].revoked && w.t.invitations[i].redeemedBy.Some?)
      && (w.t.invitations[i].redeemedBy.Some? ==>
            exists p :: Winner(w, p, i) && w.calls[p].uid == w.t.invitations[i].redeemedBy.value)
  }

  ghost predicate Inv(w: World) {
    CallsApart(w) && AllOwn(w) && InvitationsSound(w)
  }

  lemma ContinueKeepsOwners(w: World, pid: nat, e: Env)
    requires CallsApart(w) && AllOwn(w) && pid in w.calls
    ensures CallsApart(Step(w, Continue(pid, e))) && AllOwn(Step(w, Continue(pid, e)))
  {
    var w' := Step(w, Continue(pid, e));
    var c := w.calls[pid];
    AdvanceMovesForward(w.t, c, e);
    AdvanceOwns(w.t, c, e);
    forall p | p in w'.calls ensures Owns(w'.t, w'.calls[p]) {
      if p != pid {
        AdvanceIsLocal(w.t, c, e, w.calls[p].uid);
        OwnsIsLocal(w.t, w'.t, w.calls[p]);
      }
    }
    forall u | u !in w'.ids ensures Nothing(w'.t, u) {
      AdvanceIsLocal(w.t, c, e, u);
    }
  }

  /** Only the last statement of a call changes an invitation, and only a pending one. */
  lemma AdvanceOnInvitations(t: Tables, c: Call, e: Env)
    requires c.inv in t.invitations
    ensures var (t', c') := Advance(t, c, e);
      if c.stage != Finished(true) && c'.stage == Finished(true) then
        Pending(t.invitations[c.inv]) &&
        t'.invitations == t.invitations[c.inv := t.invitations[c.inv].(redeemedBy := Some(c.uid))]
      else t'.invitations == t.invitations && (c.stage == Finished(true) ==> c' == c)
  {
  }

  lemma ContinueKeepsInvitations(w: World, pid: nat, e: Env)
    requires CallsApart(w) && InvitationsSound(w) && pid in w.calls
    ensures InvitationsSound(Step(w, Continue(pid, e)))
  {
    var w' := Step(w, Continue(pid, e));
    AdvanceOnInvitations(w.t, w.calls[pid], e);
    AdvanceMovesForward(w.t, w.calls[pid], e);
    forall i | i in w'.t.invitations && w'.t.invitations[i].redeemedBy.Some?
      ensures exists p :: Winner(w', p, i) && w'.calls[p].uid == w'.t.invitations[i].redeemedBy.value
    {
      if w'.t.invitations[i] == w.t.invitations[i] {
        var p :| Winner(w, p, i) && w.calls[p].uid == w.t.invitations[i].redeemedBy.value;
        assert Winner(w', p, i) && w'.calls[p].uid == w.calls[p].uid;
      } else {
        assert Winner(w', pid, i) && w'.calls[pid].uid == w.calls[pid].uid;
      }
    }
  }

  lemma QuietKeepsInvitations(w: World, w': World)
    requires InvitationsSound(w)
    requires forall p :: p in w.calls ==> p in w'.calls && w'.calls[p] == w.calls[p]
    requires forall i :: i in w'.t.invitations ==>
      (w'.t.invitations[i].redeemedBy.Some? ==> i in w.t.invitations && w'.t.invitations[i] == w.t.invitations[i])
    ensures InvitationsSound(w')
  {
    forall i | i in w'.t.invitations && w'.t.invitations[i].redeemedBy.Some?
      ensures exists p :: Winner(w', p, i) && w'.calls[p].uid == w'.t.invitations[i].redeemedBy.value
    {
      var p :| Winner(w, p, i) && w.calls[p].uid == w.t.invitations[i].redeemedBy.value;
      assert Winner(w', p, i);
    }
  }

  lemma OthersKeepOwners(w: World, a: Action)
    requires CallsApart(w) && AllOwn(w) && !a.Continue?
    ensures CallsApart(Step(w, a)) && AllOwn(Step(w, a))
  {
    var w' := Step(w, a);
    forall p | p in w'.calls ensures Owns(w'.t, w'.calls[p]) {
      if p in w.calls {
        OwnsIsLocal(w.t, w'.t, w.calls[p]);
      }
    }
  }

  lemma StepKeepsInv(w: World, a: Action)
    requires Inv(w)
    ensures Inv(Step(w, a))
  {
    hide CallsApart, AllOwn, InvitationsSound;
    if a.Continue? {
      if a.pid in w.calls {
        ContinueKeepsOwners(w, a.pid, a.env);
        ContinueKeepsInvitations(w, a.pid, a.env);
      }
    } else {
      OthersKeepOwners(w, a);
      QuietKeepsInvitations(w, Step(w, a));
    }
  }

  lemma {:induction false} InvAlways(run: seq<Action>)
    ensures Inv(Run(run))
  {
    if run != [] {
      InvAlways(run[..|run| - 1]);
      StepKeepsInv(Run(run[..|run| - 1]), run[|run| - 1]);
    }
  }

  // ----- main results -----

  /** At most one redemption of an invitation succeeds. Its account is the one the invitation records and
      is complete: a user with the invited address, a credential, a profile and a session of that user. A
      revoked invitation has no winner. */
  lemma AtMostOneWinner(run: seq<Action>, w: World, p: nat, q: nat, inv: Id)
    requires Reached(run, w) && Winner(w, p, inv)
    ensures inv in w.t.invitations && w.t.invitations[inv].redeemedBy == Some(w.calls[p].uid)
    ensures !w.t.invitations[inv].revoked
    ensures Account(w.t, w.calls[p].uid) && w.t.users[w.calls[p].uid] == w.t.invitations[inv].email
    ensures exists s :: s in w.t.sessions && w.t.sessions[s] == w.calls[p].uid
    ensures Winner(w, q, inv) ==> q == p
  {
    ReachedIsRun(run, w);
    InvAlways(run);
    hide Run;
    assert Owns(w.t, w.calls[p]);
  }

  /** A failed redemption leaves no user, credential, session or profile of its own. */
  lemma FailureLeavesNothing(run: seq<Action>, w: World, p: nat)
    requires Reached(run, w) && p in w.calls && w.calls[p].stage == Finished(false)
    ensures Nothing(w.t, w.calls[p].uid)
  {
    ReachedIsRun(run, w);
    InvAlways(run);
    hide Run;
    assert Owns(w.t, w.calls[p]);
  }

  /** A recorded redeemer always belongs to exactly one successful call, and never to a revoked invitation. */
  lemma RedeemedMeansWon(run: seq<Action>, w: World, inv: Id)
    requires Reached(run, w) && inv in w.t.invitations
    ensures w.t.invitations[inv].redeemedBy.Some? <==> exists p :: Winner(w, p, inv)
    ensures !(w.t.invitations[inv].revoked && w.t.invitations[inv].redeemedBy.Some?)
  {
    ReachedIsRun(run, w);
    InvAlways(run);
    hide Run;
    forall p | Winner(w, p, inv) ensures w.t.invitations[inv].redeemedBy.Some? {
      assert Owns(w.t, w.calls[p]);
    }
  }
}
