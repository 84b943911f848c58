/** The MFA gate lets through whom it should: what admits a request, and how a sign-in gets there. */
module GateOpens {
  import opened Prelude
  import opened Sessions
  import opened MfaGate
  import M = MfaGate

  /** A request is admitted exactly when its token is one the client can present, the session check accepts
      it, and no MFA is pending. */
  lemma AdmittedIff(cfg: Config, w: World, e: M.Event)
    requires e.action.RequireSession?
    ensures var a, w' := e.action, M.Step(cfg, w, e);
      w'.log == if (a.token in w.disclosed || a.token !in w.drawn)
                   && Admissible(cfg, w.db, a.sid, Sha256(a.token), e.now, a.lookupOk) && !w.db.sessions[a.sid].mfaPending
                then w.log + [Admitted(a.sid)] else w.log
  {
    AcceptsSpelledOut(cfg, w.db, CheckEvent(e.action.sid, e.action.token, e.action.lookupOk, e.action.wrote, e.now));
    hide Accepts, Admissible, Exec;
  }

  /** A challenge can be taken up exactly when the same holds but MFA is pending. */
  lemma ChallengedIff(cfg: Config, w: World, e: M.Event)
    requires e.action.BeginChallenge? && e.action.pid !in w.procs
    ensures var a, w' := e.action, M.Step(cfg, w, e);
      w'.procs == if (a.token in w.disclosed || a.token !in w.drawn)
                     && Admissible(cfg, w.db, a.sid, Sha256(a.token), e.now, a.lookupOk) && w.db.sessions[a.sid].mfaPending
                  then w.procs[a.pid := Proving(a.sid, w.db.sessions[a.sid].user)] else w.procs
  {
    AcceptsSpelledOut(cfg, w.db, CheckEvent(e.action.sid, e.action.token, e.action.lookupOk, e.action.wrote, e.now));
    hide Accepts, Admissible, Exec;
  }

  /** Some steps, all of them at `now`. */
  function Steps(cfg: Config, w: World, actions: seq<M.Action>, now: int): World
    decreases |actions|
  {
    if actions == [] then w else Steps(cfg, M.Step(cfg, w, M.Event(actions[0], now)), actions[1..], now)
  }

  lemma OneStep(cfg: Config, w: World, a: M.Action, rest: seq<M.Action>, now: int)
    ensures Steps(cfg, w, [a] + rest, now) == Steps(cfg, M.Step(cfg, w, M.Event(a, now)), rest, now)
  {
    assert ([a] + rest)[1..] == rest;
  }

  /** The session is this one, held by this token, and the check accepts it. */
  ghost predicate Held(cfg: Config, w: World, sid: Id, token: string, now: int) {
    (token in w.disclosed || token !in w.drawn) && Admissible(cfg, w.db, sid, Sha256(token), now, true)
  }

  /** Touching the session at the same instant keeps it acceptable. */
  lemma StillHeld(cfg: Config, w: World, w': World, sid: Id, token: string, now: int, pending: bool)
    requires Held(cfg, w, sid, token, now) && w'.disclosed == w.disclosed && w'.drawn == w.drawn && w'.db.users == w.db.users
    requires w'.db.sessions == w.db.sessions[sid := w.db.sessions[sid].(lastActive := now, mfaPending := pending)]
    ensures Held(cfg, w', sid, token, now)
  {
  }

  lemma TakesChallenge(cfg: Config, w: World, pid: nat, sid: Id, token: string, now: int)
    requires pid !in w.procs && Held(cfg, w, sid, token, now) && w.db.sessions[sid].mfaPending
    ensures M.Step(cfg, w, M.Event(BeginChallenge(pid, sid, token, true, true), now)) ==
      w.(db := w.db.(sessions := w.db.sessions[sid := w.db.sessions[sid].(lastActive := now)]),
         procs := w.procs[pid := Proving(sid, w.db.sessions[sid].user)])
  {
    AcceptsSpelledOut(cfg, w.db, CheckEvent(sid, token, true, true, now));
    hide Admissible;
  }

  /** From every state: the holder of a pending session who proves a factor, or gives an unused recovery
      code, is challenged successfully, and the next request on the session is admitted. */
  lemma ChallengeOpensGate(cfg: Config, w: World, pid: nat, sid: Id, token: string, spent: Option<Digest>, now: int)
    requires pid !in w.procs && Held(cfg, w, sid, token, now) && w.db.sessions[sid].mfaPending
    requires spent.Some? ==>
      exists c :: c in w.codes && w.codes[c] == RecoveryCode(w.db.sessions[sid].user, spent.value, false)
    ensures Steps(cfg, w, [BeginChallenge(pid, sid, token, true, true),
                           if spent.None? then ProveTotp(pid) else ProveRecovery(pid, spent.value),
                           ClearFlag(pid, true), RequireSession(sid, token, true, true)], now).log ==
      w.log + [Challenged(sid, spent), Admitted(sid)]
  {
    var s := w.db.sessions[sid];
    var a1, a2, a3, a4 := BeginChallenge(pid, sid, token, true, true),
      if spent.None? then ProveTotp(pid) else ProveRecovery(pid, spent.value), ClearFlag(pid, true), RequireSession(sid, token, true, true);
    TakesChallenge(cfg, w, pid, sid, token, now);
    var w1 := M.Step(cfg, w, M.Event(a1, now));
    var w2 := M.Step(cfg, w1, M.Event(a2, now));
    assert w2 == w1.(codes := w2.codes, procs := w1.procs[pid := Clearing(sid, spent)]) by {
      Proves(cfg, w1, pid, sid, spent, now);
    }
    var w3 := M.Step(cfg, w2, M.Event(a3, now));
    Clears(cfg, w2, pid, sid, spent, now);
    assert w3.db.sessions == w.db.sessions[sid := s.(lastActive := now, mfaPending := false)];
    StillHeld(cfg, w, w3, sid, token, now, false);
    AdmittedIff(cfg, w3, M.Event(a4, now));
    hide M.Step, Held;
    OneStep(cfg, w, a1, [a2, a3, a4], now);
    OneStep(cfg, w1, a2, [a3, a4], now);
    OneStep(cfg, w2, a3, [a4], now);
    OneStep(cfg, w3, a4, [], now);
    assert [a1] + [a2, a3, a4] == [a1, a2, a3, a4] && [a2] + [a3, a4] == [a2, a3, a4] && [a3] + [a4] == [a3, a4] && [a4] + [] == [a4];
  }

  lemma Proves(cfg: Config, w: World, pid: nat, sid: Id, spent: Option<Digest>, now: int)
    requires pid in w.procs && w.procs[pid].Proving? && w.procs[pid].sid == sid
    requires spent.Some? ==> exists c :: c in w.codes && w.codes[c] == RecoveryCode(w.procs[pid].user, spent.value, false)
    ensures var w' := M.Step(cfg, w, M.Event(if spent.None? then ProveTotp(pid) else ProveRecovery(pid, spent.value), now));
      w' == w.(codes := w'.codes, procs := w.procs[pid := Clearing(sid, spent)])
  {
    hide Exec;
  }

  lemma Clears(cfg: Config, w: World, pid: nat, sid: Id, spent: Option<Digest>, now: int)
    requires pid in w.procs && w.procs[pid] == Clearing(sid, spent) && sid in w.db.sessions
    ensures var w' := M.Step(cfg, w, M.Event(ClearFlag(pid, true), now));
      && w' == w.(db := w'.db, procs := w'.procs, log := w.log + [Challenged(sid, spent)], challengedAt := w'.challengedAt)
      && w'.db == w.db.(sessions := w.db.sessions[sid := w.db.sessions[sid].(mfaPending := false)])
  {
    hide Exec;
  }

  /** From every state: a sign-in of a known user with a fresh secret hands out its session, flagged if the
      user has MFA, and tells the client the token. */
  lemma SignInHandsOut(cfg: Config, w: World, pid: nat, sid: Id, user: Id, secret: string, life: nat, staff: bool, mfa: bool, now: int)
    requires pid !in w.procs && sid !in w.db.sessions && user in w.db.users && secret !in w.drawn
    requires forall s :: s in w.db.sessions ==> w.db.sessions[s].tokenHash != Sha256(secret)
    ensures var w' := Steps(cfg, w, [Begin(pid, sid, user, secret, now, now + life, staff), AskMfa(pid, mfa),
                                     if mfa then Flag(pid, true, true) else Hook(pid, true, true)], now);
      && w'.log == w.log + [HandedOut(sid, mfa)] && w'.disclosed == w.disclosed + {secret}
      && w'.db.sessions == w.db.sessions[sid := Session(user, Sha256(secret), now, now + life, now, false, mfa, staff)]
  {
    var a1, a2, a3 := Begin(pid, sid, user, secret, now, now + life, staff), AskMfa(pid, mfa),
      if mfa then Flag(pid, true, true) else Hook(pid, true, true);
    var w1 := M.Step(cfg, w, M.Event(a1, now));
    assert w1.procs == w.procs[pid := SignIn(sid, secret, Asking)];
    var w2 := M.Step(cfg, w1, M.Event(a2, now));
    assert w2 == w1.(procs := w1.procs[pid := SignIn(sid, secret, if mfa then Flagging else Hooking)]);
    var w3 := M.Step(cfg, w2, M.Event(a3, now));
    assert w3.log == w.log + [HandedOut(sid, mfa)];
    OneStep(cfg, w, a1, [a2, a3], now);
    OneStep(cfg, w1, a2, [a3], now);
    OneStep(cfg, w2, a3, [], now);
    assert [a1] + [a2, a3] == [a1, a2, a3] && [a2] + [a3] == [a2, a3] && [a3] + [] == [a3];
  }

  /** The revocations, status changes and new accounts that happen meanwhile are the session module's. */
  lemma BackgroundStep(cfg: Config, w: World, e: M.Event)
    requires e.action.Background?
    ensures var a := e.action.statement;
      a.Revoke? || a.RevokeAll? || a.UpdateStatus? || a.AddUser? ==> M.Step(cfg, w, e) == w.(db := Exec(cfg, w.db, Sessions.Event(a, e.now)))
  {
    hide Exec;
  }
}
