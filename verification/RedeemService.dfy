/** `Redeem` and `CreateAccount` as they run: ordered writes with compensating deletes. */
module RedeemService {
  import opened Prelude
  import opened RedeemSaga

  datatype Refusal = InviteInvalid | InviteRevoked | InviteUsed | AddressTaken | Failed

  datatype Result = Redeemed(user: Id) | Refused(why: Refusal)

  /** A call of the saga run with no one else: the state after its first `n` statements. */
  function Alone(t: Tables, c: Call, env: nat -> Env, n: nat): (Tables, Call)
    requires c.inv in t.invitations
    ensures c.inv in Alone(t, c, env, n).0.invitations && Alone(t, c, env, n).1.inv == c.inv
  {
    if n == 0 then (t, c)
    else
      var (t', c') := Alone(t, c, env, n - 1);
      Advance(t', c', env(n - 1))
  }

  type Invitations = map<Id, Invitation>

  /** The invitation a token hash belongs to. */
  ghost predicate OnlyHolder(t: Invitations, i: Id, h: Digest) {
    i in t && t[i].tokenHash == h && forall j :: j in t && t[j].tokenHash == h ==> j == i
  }

  ghost predicate NoHolder(t: Invitations, h: Digest) {
    forall i :: i in t ==> t[i].tokenHash != h
  }

  /** The invitation can still be redeemed: not revoked, not used, and not past its last instant. */
  ghost predicate Open(i: Invitation, now: int) {
    !i.revoked && i.redeemedBy == None && now <= i.expiresAt
  }

  /** Revoked is reported before used, used before expired. */
  ghost function Why(i: Invitation): Refusal {
    if i.revoked then InviteRevoked else if i.redeemedBy.Some? then InviteUsed else InviteInvalid
  }

  ghost predicate AddressFree(users: map<Id, string>, email: string) {
    forall u :: u in users ==> users[u] != email
  }

  class InviteService {
    var users: map<Id, string>
    var passwords: set<Id>
    var sessions: map<Id, Id>
    var profiles: set<Id>
    var invitations: map<Id, Invitation>

    constructor ()
      ensures View() == START.t
    {
      users := map[];
      passwords := {};
      sessions := map[];
      profiles := {};
      invitations := map[];
    }

    ghost function View(): Tables
      reads this
    {
      Tables(users, passwords, sessions, profiles, invitations)
    }

    /** The run so far is the first `n` statements of the call, which now stands at `stage`. */
    ghost predicate Reached(start: Tables, c: Call, env: nat -> Env, n: nat, stage: Stage)
      requires c.inv in start.invitations
      reads this
    {
      Alone(start, c, env, n) == (View(), c.(stage := stage))
    }

    method Validate(token: string, now: int, lookupOk: bool) returns (inv: Option<Id>, why: Refusal)
      ensures inv.Some? ==> Valid(View(), inv.value, now) && invitations[inv.value].tokenHash == Sha256(Trim(token))
      ensures forall i: Id :: lookupOk && OnlyHolder(invitations, i, Sha256(Trim(token))) ==>
        if Open(invitations[i], now) then inv == Some(i) else inv == None && why == Why(invitations[i])
      ensures !lookupOk || NoHolder(invitations, Sha256(Trim(token))) ==> inv.None? && why == InviteInvalid
    {
      why := InviteInvalid;
      inv := None;
      if lookupOk {
        if i :| i in invitations && invitations[i].tokenHash == Sha256(Trim(token)) {
          if invitations[i].revoked {
            why := InviteRevoked;
          } else if invitations[i].redeemedBy.Some? {
            why := InviteUsed;
          } else if now <= invitations[i].expiresAt {
            inv := Some(i);
          }
        }
      }
    }

    /** Revokes the invitation if it is pending; any other stays as it is. */
    method Revoke(inv: Id)
      modifies this`invitations
      ensures View() == RevokeInvitation(old(View()), inv)
      ensures invitations.Keys == old(invitations).Keys
      ensures forall i :: i in invitations ==>
        invitations[i] == old(invitations)[i].(revoked :=
          old(invitations)[i].revoked || (i == inv && old(invitations)[i].redeemedBy == None))
    {
      if inv in invitations && Pending(invitations[inv]) {
        invitations := invitations[inv := invitations[inv].(revoked := true)];
      }
    }

    /** Deletes the credential and the user row; sessions go with the row. */
    method RollbackUser(uid: Id)
      modifies this`users, this`passwords, this`sessions
      ensures View() == Apply(Apply(old(View()), DropPassword, uid), DropUser, uid)
    {
      passwords := passwords - {uid};
      users := users - {uid};
      sessions := map s | s in sessions && sessions[s] != uid :: sessions[s];
    }

    method RollbackProfile(uid: Id)
      modifies this`profiles
      ensures View() == Apply(old(View()), DropProfile, uid)
    {
      profiles := profiles - {uid};
    }

    lemma UndoneUser(start: Tables, c: Call, env: nat -> Env, n: nat, before: Tables)
      requires c.inv in start.invitations
      requires Alone(start, c, env, n) == (before, c.(stage := Undoing(ROLLBACK_USER)))
      requires View() == Apply(Apply(before, DropPassword, c.uid), DropUser, c.uid)
      ensures Reached(start, c, env, n + 3, Finished(false))
    {
      assert ROLLBACK_USER[1..] == [DropUser] && [DropUser][1..] == [];
      assert Alone(start, c, env, n + 1) == (Apply(before, DropPassword, c.uid), c.(stage := Undoing([DropUser])));
      assert Alone(start, c, env, n + 2) == (View(), c.(stage := Undoing([])));
    }

    lemma UndoneAll(start: Tables, c: Call, env: nat -> Env, n: nat, before: Tables, todo: seq<Undo>)
      requires c.inv in start.invitations && |todo| == 3
      requires Alone(start, c, env, n) == (before, c.(stage := Undoing(todo)))
      requires View() == Apply(Apply(Apply(before, todo[0], c.uid), todo[1], c.uid), todo[2], c.uid)
      ensures Reached(start, c, env, n + 4, Finished(false))
    {
      assert todo[1..][1..] == [todo[2]] && [todo[2]][1..] == [];
      assert Alone(start, c, env, n + 1) == (Apply(before, todo[0], c.uid), c.(stage := Undoing(todo[1..])));
      assert Alone(start, c, env, n + 2) == (Apply(Apply(before, todo[0], c.uid), todo[1], c.uid), c.(stage := Undoing([todo[2]])));
      assert Alone(start, c, env, n + 3) == (View(), c.(stage := Undoing([])));
    }

    /** Inserts user and credential; undoes the user when the credential cannot be stored. */
    method CreateLogin(uid: Id, email: string, env: nat -> Env, ghost start: Tables, ghost c: Call)
      returns (ok: bool, why: Refusal, ghost n: nat)
      requires c.inv in start.invitations && c.stage == CheckEmail && c.uid == uid && start == View()
      requires start.invitations[c.inv].email == email && Nothing(start, uid)
      modifies this`users, this`passwords, this`sessions
      ensures ok ==> n == 3 && Reached(start, c, env, 3, InsertProfile)
      ensures ok ==> View() == WithLogin(start, uid, email)
      ensures !ok ==> n > 0 && Reached(start, c, env, n, Finished(false)) && View() == start
      ensures !ok ==> why == if !env(0).fails && EmailTaken(start, email) then AddressTaken else Failed
      ensures ok ==> env(0).fails || !EmailTaken(start, email)
      ensures ok <==> !env(1).fails && !env(2).fails && forall u :: u in start.users ==> start.users[u] != email
    {
      n, why := 1, Failed;
      assert Alone(start, c, env, 0) == (start, c);
      if !env(0).fails && exists u :: u in users && users[u] == email {
        return false, AddressTaken, n;
      }
      assert Reached(start, c, env, 1, InsertUser);
      n := 2;
      if env(1).fails || uid in users || exists u :: u in users && users[u] == email {
        return false, why, n;
      }
      users := users[uid := email];
      assert Reached(start, c, env, 2, InsertPassword);
      n := 3;
      if env(2).fails {
        ghost var before := View();
        assert Alone(start, c, env, 3) == (before, c.(stage := Undoing(ROLLBACK_USER)));
        UndoLogin(uid, start, c, env, 3, before);
        n := 6;
        return false, why, n;
      }
      passwords := passwords + {uid};
      return true, why, n;
    }

    /** Inserts the profile; undoes the login on failure. */
    method StoreProfile(uid: Id, env: nat -> Env, ghost start: Tables, ghost c: Call)
      returns (ok: bool, ghost n: nat)
      requires c.inv in start.invitations && c.uid == uid && Nothing(start, uid)
      requires Reached(start, c, env, 3, InsertProfile)
      requires View() == WithLogin(start, uid, start.invitations[c.inv].email)
      modifies this`users, this`passwords, this`sessions, this`profiles
      ensures ok <==> !env(3).fails
      ensures ok ==> n == 4 && Reached(start, c, env, 4, OpenSession)
      ensures ok ==> View() == WithProfile(start, uid, start.invitations[c.inv].email)
      ensures !ok ==> n > 0 && Reached(start, c, env, n, Finished(false)) && View() == start
    {
      n := 4;
      if env(3).fails {
        ghost var before := View();
        assert Alone(start, c, env, 4) == (before, c.(stage := Undoing(ROLLBACK_USER)));
        UndoLogin(uid, start, c, env, 4, before);
        n := 7;
        return false, n;
      }
      profiles := profiles + {uid};
      return true, n;
    }

    /** Opens the session and runs the signup hook, each undoing the account on failure. */
    method OpenFirstSession(uid: Id, env: nat -> Env, ghost start: Tables, ghost c: Call)
      returns (ok: bool, ghost n: nat)
      requires c.inv in start.invitations && c.uid == uid && Nothing(start, uid)
      requires Reached(start, c, env, 4, OpenSession)
      requires View() == WithProfile(start, uid, start.invitations[c.inv].email)
      modifies this`users, this`passwords, this`sessions, this`profiles
      ensures ok <==> !env(4).fails && env(4).sid !in start.sessions && !env(5).fails
      ensures ok ==> n == 6 && Reached(start, c, env, 6, AssignRole) && env(4).sid !in start.sessions
      ensures ok ==> View() == WithAccount(start, uid, start.invitations[c.inv].email, env(4).sid)
      ensures !ok ==> n > 0 && Reached(start, c, env, n, Finished(false)) && View() == start
    {
      n := 5;
      if env(4).fails || env(4).sid in sessions {
        ghost var before := View();
        assert Alone(start, c, env, 5) == (before, c.(stage := Undoing(ROLLBACK_PROFILE_THEN_USER)));
        UndoAccount(uid, start, c, env, 5, before);
        n := 9;
        return false, n;
      }
      sessions := sessions[env(4).sid := uid];
      ok, n := RunSignupHook(uid, env, start, c);
    }

    method RunSignupHook(uid: Id, env: nat -> Env, ghost start: Tables, ghost c: Call)
      returns (ok: bool, ghost n: nat)
      requires c.inv in start.invitations && c.uid == uid && Nothing(start, uid) && env(4).sid !in start.sessions
      requires Reached(start, c, env, 5, SignupHook)
      requires View() == WithAccount(start, uid, start.invitations[c.inv].email, env(4).sid)
      modifies this`users, this`passwords, this`sessions, this`profiles
      ensures ok <==> !env(5).fails
      ensures ok ==> n == 6 && Reached(start, c, env, 6, AssignRole) && View() == old(View())
      ensures !ok ==> n > 0 && Reached(start, c, env, n, Finished(false)) && View() == start
    {
      n := 6;
      if env(5).fails {
        ghost var before := View();
        assert Alone(start, c, env, 6) == (before, c.(stage := Undoing(ROLLBACK_PROFILE_THEN_USER)));
        UndoAccount(uid, start, c, env, 6, before);
        n := 10;
        return false, n;
      }
      return true, n;
    }

    method UndoLogin(uid: Id, ghost start: Tables, ghost c: Call, env: nat -> Env, ghost n: nat, ghost before: Tables)
      requires c.inv in start.invitations && c.uid == uid && before == View()
      requires Alone(start, c, env, n) == (before, c.(stage := Undoing(ROLLBACK_USER)))
      requires before.invitations == start.invitations && OnlyAdds(start, before, uid) && uid !in before.profiles
      modifies this`users, this`passwords, this`sessions
      ensures Reached(start, c, env, n + 3, Finished(false)) && View() == start
    {
      RollbackUser(uid);
      UndoneUser(start, c, env, n, before);
      assert profiles == start.profiles;
    }

    method UndoRedemption(uid: Id, ghost start: Tables, ghost c: Call, env: nat -> Env, ghost n: nat, ghost before: Tables)
      requires c.inv in start.invitations && c.uid == uid && before == View()
      requires Alone(start, c, env, n) == (before, c.(stage := Undoing(ROLLBACK_USER_THEN_PROFILE)))
      requires before.invitations == start.invitations && OnlyAdds(start, before, uid)
      modifies this`users, this`passwords, this`sessions, this`profiles
      ensures Reached(start, c, env, n + 4, Finished(false)) && View() == start
    {
      RollbackUser(uid);
      RollbackProfile(uid);
      UndoneAll(start, c, env, n, before, ROLLBACK_USER_THEN_PROFILE);
    }

    method UndoAccount(uid: Id, ghost start: Tables, ghost c: Call, env: nat -> Env, ghost n: nat, ghost before: Tables)
      requires c.inv in start.invitations && c.uid == uid && Nothing(start, uid) && before == View()
      requires Alone(start, c, env, n) == (before, c.(stage := Undoing(ROLLBACK_PROFILE_THEN_USER)))
      requires before.invitations == start.invitations && OnlyAdds(start, before, uid)
      modifies this`users, this`passwords, this`sessions, this`profiles
      ensures Reached(start, c, env, n + 4, Finished(false)) && View() == start
    {
      RollbackProfile(uid);
      RollbackUser(uid);
      UndoneAll(start, c, env, n, before, ROLLBACK_PROFILE_THEN_USER);
      assert View() == start;
    }

    /** Redeems an invitation: all of the account and the redemption, or nothing at all, and exactly as
        the saga's call does when no one interferes. It succeeds exactly when the token's invitation is
        pending and in time, its address is free, the session id is new and no statement that matters fails:
        the address lookup does not, nor the role assignment when there is no role. */
    method Redeem(token: string, uid: Id, now: int, lookupOk: bool, env: nat -> Env)
      returns (r: Result, ghost inv: Id, ghost n: nat)
      requires Nothing(View(), uid)
      modifies this
      ensures r.Refused? ==> View() == old(View())
      ensures r.Redeemed? ==> r.user == uid && Valid(old(View()), inv, now)
      ensures r.Redeemed? ==> old(invitations)[inv].tokenHash == Sha256(Trim(token))
      ensures r.Redeemed? ==>
        && users == old(users)[uid := old(invitations)[inv].email] && passwords == old(passwords) + {uid}
        && profiles == old(profiles) + {uid} && sessions == old(sessions)[env(4).sid := uid]
        && invitations == old(invitations)[inv := old(invitations)[inv].(redeemedBy := Some(uid))]
      ensures n > 0 ==> Valid(old(View()), inv, now)
      ensures n > 0 ==>
        Alone(old(View()), Call(inv, uid, CheckEmail), env, n) == (View(), Call(inv, uid, Finished(r.Redeemed?)))
      ensures n == 0 ==> r.Refused?
      ensures n > 0 ==> (r == Refused(AddressTaken) <==> !env(0).fails && !AddressFree(old(users), old(invitations)[inv].email))
      // on the tables and the answers alone
      ensures forall i: Id :: lookupOk && OnlyHolder(old(invitations), i, Sha256(Trim(token))) ==>
        && (r.Redeemed? <==> Redeemable(old(users), old(sessions), old(invitations)[i], now, env))
        && (if Open(old(invitations)[i], now) then inv == i && n > 0 else r == Refused(Why(old(invitations)[i])))
      ensures !lookupOk || NoHolder(old(invitations), Sha256(Trim(token))) ==> r == Refused(InviteInvalid)
    {
      hide Trim, Alone;
      inv, n := 0, 0;
      var found, why := Validate(token, now, lookupOk);
      if found.None? {
        return Refused(why), inv, n;
      }
      inv := found.value;
      r, n := RedeemValid(found.value, uid, now, env);
    }

    /** The part after the token is found good. */
    method RedeemValid(inv: Id, uid: Id, now: int, env: nat -> Env) returns (r: Result, ghost n: nat)
      requires Nothing(View(), uid) && Valid(View(), inv, now)
      modifies this
      ensures n > 0 && Alone(old(View()), Call(inv, uid, CheckEmail), env, n) == (View(), Call(inv, uid, Finished(r.Redeemed?)))
      ensures r.Redeemed? <==> Redeemable(old(users), old(sessions), old(invitations)[inv], now, env)
      ensures r.Refused? ==> View() == old(View())
      ensures r.Redeemed? ==>
        r.user == uid
        && Some(View()) == MarkRedeemed(WithAccount(old(View()), uid, old(invitations)[inv].email, env(4).sid), inv, uid)
      ensures r == Refused(AddressTaken) <==> !env(0).fails && EmailTaken(old(View()), old(invitations)[inv].email)
      ensures r.Refused? ==> r.why == AddressTaken || r.why == Failed
    {
      ghost var start := View();
      n := 0;
      ghost var c := Call(inv, uid, CheckEmail);
      var i := invitations[inv];
      hide WithAccount, Alone, Nothing;
      var ok, why;
      ok, why, n := CreateAccount(uid, i.email, env, start, c);
      if !ok {
        return Refused(why), n;
      }
      ok, n := AssignInvitedRole(uid, inv, i.role, env, start, c);
      if !ok {
        return Refused(Failed), n;
      }
      ok, n := MarkInvitation(uid, inv, env, start, c);
      return if ok then Redeemed(uid) else Refused(Failed), n;
    }

    /** User, credential, profile, session and signup hook: all of them, or the tables as before. */
    method CreateAccount(uid: Id, email: string, env: nat -> Env, ghost start: Tables, ghost c: Call)
      returns (ok: bool, why: Refusal, ghost n: nat)
      requires c.inv in start.invitations && c.stage == CheckEmail && c.uid == uid && start == View()
      requires start.invitations[c.inv].email == email && Nothing(start, uid)
      modifies this`users, this`passwords, this`sessions, this`profiles
      ensures ok <==>
        && AddressFree(start.users, email) && env(4).sid !in start.sessions
        && !env(1).fails && !env(2).fails && !env(3).fails && !env(4).fails && !env(5).fails
      ensures ok ==> Reached(start, c, env, 6, AssignRole) && View() == WithAccount(start, uid, email, env(4).sid)
      ensures !ok ==> n > 0 && Reached(start, c, env, n, Finished(false)) && View() == start
      ensures !ok ==> why == if !env(0).fails && !AddressFree(start.users, email) then AddressTaken else Failed
    {
      hide Alone, Nothing;
      ok, why, n := CreateLogin(uid, email, env, start, c);
      if !ok {
        return;
      }
      why := Failed;
      ok, n := StoreProfile(uid, env, start, c);
      if !ok {
        return;
      }
      ok, n := OpenFirstSession(uid, env, start, c);
    }

    /** Assigns the role, if any. */
    method AssignInvitedRole(uid: Id, inv: Id, role: string, env: nat -> Env, ghost start: Tables, ghost c: Call)
      returns (ok: bool, ghost n: nat)
      requires inv in start.invitations && c == Call(inv, uid, CheckEmail) && Nothing(start, uid)
      requires start.invitations[inv].role == role && env(4).sid !in start.sessions
      requires Reached(start, c, env, 6, AssignRole)
      requires View() == WithAccount(start, uid, start.invitations[inv].email, env(4).sid)
      modifies this`users, this`passwords, this`sessions, this`profiles
      ensures ok <==> role == "" || !env(6).fails
      ensures ok ==> n == 7 && Reached(start, c, env, 7, Mark) && View() == old(View())
      ensures !ok ==> n > 0 && Reached(start, c, env, n, Finished(false)) && View() == start
    {
      n := 7;
      if role != "" && env(6).fails {
        ghost var before := View();
        assert Alone(start, c, env, 7) == (before, c.(stage := Undoing(ROLLBACK_USER_THEN_PROFILE)));
        UndoRedemption(uid, start, c, env, 7, before);
        n := 11;
        return false, n;
      }
      return true, n;
    }

    /** Marks the invitation redeemed, last. */
    method MarkInvitation(uid: Id, inv: Id, env: nat -> Env, ghost start: Tables, ghost c: Call)
      returns (ok: bool, ghost n: nat)
      requires inv in start.invitations && c == Call(inv, uid, CheckEmail) && Nothing(start, uid)
      requires Pending(start.invitations[inv]) && env(4).sid !in start.sessions
      requires Reached(start, c, env, 7, Mark)
      requires View() == WithAccount(start, uid, start.invitations[inv].email, env(4).sid)
      modifies this
      ensures ok <==> !env(7).fails
      ensures ok ==> n == 8 && Reached(start, c, env, 8, Finished(true))
      ensures ok ==> Some(View()) == MarkRedeemed(old(View()), inv, uid)
      ensures !ok ==> n > 0 && Reached(start, c, env, n, Finished(false)) && View() == start
    {
      n := 8;
      if env(7).fails {
        ghost var before := View();
        assert Alone(start, c, env, 8) == (before, c.(stage := Undoing(ROLLBACK_USER_THEN_PROFILE)));
        UndoRedemption(uid, start, c, env, 8, before);
        n := 12;
        return false, n;
      }
      invitations := invitations[inv := invitations[inv].(redeemedBy := Some(uid))];
      return true, n;
    }
  }

  /** The invitation is open, its address free, the session id new, and no statement fails that decides
      about the redemption: the address lookup does not, nor the role assignment when there is no role. */
  ghost predicate Redeemable(users: map<Id, string>, sessions: map<Id, Id>, i: Invitation, now: int, env: nat -> Env) {
    && Open(i, now) && AddressFree(users, i.email) && env(4).sid !in sessions
    && !env(1).fails && !env(2).fails && !env(3).fails && !env(4).fails && !env(5).fails && !env(7).fails
    && (i.role != "" ==> !env(6).fails)
  }

  function WithLogin(t: Tables, uid: Id, email: string): Tables {
    t.(users := t.users[uid := email], passwords := t.passwords + {uid})
  }

  function WithProfile(t: Tables, uid: Id, email: string): Tables {
    WithLogin(t, uid, email).(profiles := t.profiles + {uid})
  }

  /** The tables with the complete account added. */
  function WithAccount(t: Tables, uid: Id, email: string, sid: Id): Tables {
    t.(users := t.users[uid := email], passwords := t.passwords + {uid},
       sessions := t.sessions[sid := uid], profiles := t.profiles + {uid})
  }

  /** Everything added since belongs to the user id. */
  ghost predicate OnlyAdds(t: Tables, t': Tables, uid: Id) {
    && t'.users - {uid} == t.users && t'.passwords - {uid} == t.passwords && t'.profiles - {uid} == t.profiles
    && (map s | s in t'.sessions && t'.sessions[s] != uid :: t'.sessions[s]) == t.sessions
  }
}
