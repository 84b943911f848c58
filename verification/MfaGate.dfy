/** Sign-in, the MFA flag and the session gate, interleaved statement by statement.

    A sign-in creates its session, asks whether the user has MFA, flags the session if so, and only
    then discloses a token (or, in the code flow, a code that lets the exchange issue one). */
module MfaGate {
  import opened Prelude
  import Runs
  import opened Sessions

  datatype Phase = Asking | Flagging | Hooking

  datatype Proc =
    | SignIn(sid: Id, secret: string, phase: Phase)
    | Proving(sid: Id, user: Id)
    /** The login code was accepted; `spent` is the recovery code it used up, if any. */
    | Clearing(sid: Id, spent: Option<Digest>)

  datatype RecoveryCode = RecoveryCode(user: Id, hash: Digest, used: bool)

  datatype Mark =
    | HandedOut(sid: Id, mfa: bool)
    | Challenged(sid: Id, spent: Option<Digest>)
    | Admitted(sid: Id)

  datatype World = World(
    db: Db,
    procs: map<nat, Proc>,
    drawn: set<string>,              // every secret generated so far
    disclosed: set<string>,          // the secrets some client has been told
    codes: map<nat, RecoveryCode>,
    log: seq<Mark>,
    handedAt: map<Id, nat>,          // where in the log a session was handed out
    challengedAt: map<Id, nat>)      // where its first successful challenge is

  datatype Action =
    | Begin(pid: nat, sid: Id, user: Id, secret: string, createdAt: int, expiresAt: int, staff: bool)
    | AskMfa(pid: nat, has: bool)
    | Flag(pid: nat, ok: bool, disclose: bool)
    | Hook(pid: nat, ok: bool, disclose: bool)
    | RequireSession(sid: Id, token: string, lookupOk: bool, wrote: bool)
    | BeginChallenge(pid: nat, sid: Id, token: string, lookupOk: bool, wrote: bool)
    | ProveTotp(pid: nat)
    | ProveRecovery(pid: nat, hash: Digest)
    | ClearFlag(pid: nat, ok: bool)
    | Abandon(pid: nat)
    | ReplaceToken(sid: Id, secret: string, rotate: bool, expiresAt: int)
    | NewRecoveryCodes(user: Id, base: nat, batch: seq<string>)
    /** Any revocation, account change or new account, by anyone. */
    | Background(statement: Sessions.Action)

  datatype Event = Event(action: Action, now: int)

  /** A client can present only what it was told, or something that was never generated. */
  predicate Presentable(w: World, token: string) {
    token in w.disclosed || token !in w.drawn
  }

  function DoBegin(w: World, a: Action): World
    requires a.Begin?
  {
    match InsertSession(w.db, a.sid, Session(a.user, Sha256(a.secret), a.createdAt, a.expiresAt, a.createdAt, false, false, a.staff))
    case None => w
    case Some(db) =>
      if a.pid in w.procs || a.secret in w.drawn then w
      else w.(db := db, drawn := w.drawn + {a.secret}, procs := w.procs[a.pid := SignIn(a.sid, a.secret, Asking)])
  }

  /** The response that ends a sign-in. In the code flow nothing but a code is sent. */
  function HandOut(w: World, pid: nat, mfa: bool, disclose: bool): World
    requires pid in w.procs && w.procs[pid].SignIn?
  {
    var p := w.procs[pid];
    w.(procs := w.procs - {pid},
       disclosed := if disclose then w.disclosed + {p.secret} else w.disclosed,
       log := w.log + [HandedOut(p.sid, mfa)],
       handedAt := w.handedAt[p.sid := |w.log|])
  }

  predicate InPhase(w: World, pid: nat, phase: Phase) {
    pid in w.procs && w.procs[pid].SignIn? && w.procs[pid].phase == phase
  }

  function DoAsk(w: World, pid: nat, has: bool): World {
    if !InPhase(w, pid, Asking) then w
    else w.(procs := w.procs[pid := w.procs[pid].(phase := if has then Flagging else Hooking)])
  }

  function DoFlag(w: World, pid: nat, ok: bool, disclose: bool): World {
    if !InPhase(w, pid, Flagging) then w
    else if !ok then w.(procs := w.procs - {pid})
    else
      HandOut(Flagged(w, pid), pid, true, disclose)
  }

  function DoHook(w: World, pid: nat, ok: bool, disclose: bool): World {
    if !InPhase(w, pid, Hooking) then w
    else if !ok then
      w.(db := w.db.(sessions := RevokeById(w.db.sessions, w.procs[pid].sid)), procs := w.procs - {pid})
    else HandOut(w, pid, false, disclose)
  }

  /** `GetSessionByToken` for the row `sid` holding the presented token. */
  function CheckEvent(sid: Id, token: string, lookupOk: bool, wrote: bool, now: int): Sessions.Event {
    Sessions.Event(Check(sid, Sha256(token), lookupOk, wrote), now)
  }

  function DoRequire(cfg: Config, w: World, a: Action, now: int): World
    requires a.RequireSession?
  {
    var e := CheckEvent(a.sid, a.token, a.lookupOk, a.wrote, now);
    if !Presentable(w, a.token) then w
    else
      var w' := w.(db := Exec(cfg, w.db, e));
      if Accepts(cfg, w.db, e) && !w.db.sessions[a.sid].mfaPending then w'.(log := w.log + [Admitted(a.sid)]) else w'
  }

  function DoBeginChallenge(cfg: Config, w: World, a: Action, now: int): World
    requires a.BeginChallenge?
  {
    var e := CheckEvent(a.sid, a.token, a.lookupOk, a.wrote, now);
    if !Presentable(w, a.token) || a.pid in w.procs then w
    else
      var w' := w.(db := Exec(cfg, w.db, e));
      if Accepts(cfg, w.db, e) && w.db.sessions[a.sid].mfaPending then
        w'.(procs := w.procs[a.pid := Proving(a.sid, w.db.sessions[a.sid].user)])
      else w'
  }

  function DoProveTotp(w: World, pid: nat): World {
    if pid in w.procs && w.procs[pid].Proving? then
      w.(procs := w.procs[pid := Clearing(w.procs[pid].sid, None)])
    else w
  }

  predicate Spendable(w: World, user: Id, hash: Digest) {
    exists c :: c in w.codes && w.codes[c] == RecoveryCode(user, hash, false)
  }

  /** `UPDATE mfa_recovery_codes SET used = true WHERE user AND hash AND NOT used`. */
  function SpendCode(codes: map<nat, RecoveryCode>, user: Id, hash: Digest): map<nat, RecoveryCode> {
    map c | c in codes ::
      if codes[c].user == user && codes[c].hash == hash then codes[c].(used := true) else codes[c]
  }

  function DoProveRecovery(w: World, pid: nat, hash: Digest): World {
    if pid in w.procs && w.procs[pid].Proving? then
      var p := w.procs[pid];
      if Spendable(w, p.user, hash) then
        w.(codes := SpendCode(w.codes, p.user, hash), procs := w.procs[pid := Clearing(p.sid, Some(hash))])
      else w.(procs := w.procs - {pid})
    else w
  }

  function DoClear(w: World, pid: nat, ok: bool): World {
    if pid in w.procs && w.procs[pid].Clearing? then
      var p := w.procs[pid];
      if !ok then w.(procs := w.procs - {pid})
      else
        w.(db := w.db.(sessions := SetMfaPending(w.db.sessions, p.sid, false)),
           procs := w.procs - {pid},
           log := w.log + [Challenged(p.sid, p.spent)],
           challengedAt := if p.sid in w.challengedAt then w.challengedAt else w.challengedAt[p.sid := |w.log|])
    else w
  }

  /** Rotation after an accepted request, or the code exchange: possible only once the session has
      been handed out, and always answered with the new token. */
  function DoReplace(cfg: Config, w: World, a: Action, now: int): World
    requires a.ReplaceToken?
  {
    if a.sid !in w.handedAt || a.secret in w.drawn then w
    else
      var act := if a.rotate then Rotate(a.sid, Sha256(a.secret), a.expiresAt) else Issue(a.sid, Sha256(a.secret));
      w.(db := Exec(cfg, w.db, Sessions.Event(act, now)),
         drawn := w.drawn + {a.secret}, disclosed := w.disclosed + {a.secret})
  }

  predicate FreshBatch(w: World, base: nat, batch: seq<string>) {
    && (forall i :: 0 <= i < |batch| ==> batch[i] !in w.drawn && base + i !in w.codes)
    && (forall i, j :: 0 <= i < j < |batch| ==> batch[i] != batch[j])
  }

  function BatchRows(user: Id, base: nat, batch: seq<string>): (rows: map<nat, RecoveryCode>)
    ensures forall c :: c in rows <==> base <= c < base + |batch|
    ensures forall c :: c in rows ==> rows[c] == RecoveryCode(user, Sha256(batch[c - base]), false)
  {
    if batch == [] then map[]
    else BatchRows(user, base, batch[..|batch| - 1])[base + |batch| - 1 := RecoveryCode(user, Sha256(batch[|batch| - 1]), false)]
  }

  /** `GenerateRecoveryCodes`: old codes of the user are deleted, new random ones inserted. */
  function DoNewCodes(w: World, user: Id, base: nat, batch: seq<string>): World {
    if !FreshBatch(w, base, batch) then w
    else
      var kept := map c | c in w.codes && w.codes[c].user != user :: w.codes[c];
      w.(codes := kept + BatchRows(user, base, batch), drawn := w.drawn + (set s | s in batch))
  }

  function Step(cfg: Config, w: World, e: Event): World {
    match e.action
    case Begin(_, _, _, _, _, _, _) => DoBegin(w, e.action)
    case AskMfa(pid, has) => DoAsk(w, pid, has)
    case Flag(pid, ok, disclose) => DoFlag(w, pid, ok, disclose)
    case Hook(pid, ok, disclose) => DoHook(w, pid, ok, disclose)
    case RequireSession(_, _, _, _) => DoRequire(cfg, w, e.action, e.now)
    case BeginChallenge(_, _, _, _, _) => DoBeginChallenge(cfg, w, e.action, e.now)
    case ProveTotp(pid) => DoProveTotp(w, pid)
    case ProveRecovery(pid, hash) => DoProveRecovery(w, pid, hash)
    case ClearFlag(pid, ok) => DoClear(w, pid, ok)
    case Abandon(pid) => w.(procs := w.procs - {pid})
    case ReplaceToken(_, _, _, _) => DoReplace(cfg, w, e.action, e.now)
    case NewRecoveryCodes(user, base, batch) => DoNewCodes(w, user, base, batch)
    case Background(a) => if IsBackground(a) then w.(db := Exec(cfg, w.db, Sessions.Event(a, e.now))) else w
  }

  predicate IsBackground(a: Sessions.Action) {
    a.Revoke? || a.RevokeAll? || a.UpdateStatus? || a.AddUser?
  }

  const START := World(EMPTY, map[], {}, {}, map[], [], map[], map[])

  function StepOf(cfg: Config): (World, Event) -> World {
    (w, a) => Step(cfg, w, a)
  }

  function Run(cfg: Config, run: seq<Event>): World {
    Runs.After(StepOf(cfg), START, run)
  }

  /** Carrying out `run` from the start leads to `w`. */
  ghost predicate Reached(cfg: Config, run: seq<Event>, w: World) {
    Runs.Reached(StepOf(cfg), START, run, w)
  }

  lemma ReachedIsRun(cfg: Config, run: seq<Event>, w: World)
    ensures Reached(cfg, run, w) <==> w == Run(cfg, run)
  {
    hide StepOf;
    Runs.ReachedIsAfter(StepOf(cfg), START, run, w);
  }

  // ----- invariants -----

  /** Undisclosed sessions have undisclosed tokens, and token hashes are unique. */
  ghost predicate SecretsKept(w: World) {
    && w.disclosed <= w.drawn
    && (forall s :: s in w.db.sessions ==> w.db.sessions[s].tokenHash.preimage in w.drawn)
    && (forall s :: s in w.db.sessions && s !in w.handedAt ==> w.db.sessions[s].tokenHash.preimage !in w.disclosed)
    && (forall s, t :: s in w.db.sessions && t in w.db.sessions && s != t ==>
          w.db.sessions[s].tokenHash != w.db.sessions[t].tokenHash)
  }

  ghost predicate SignInsApart(w: World) {
    && (forall p :: p in w.procs && w.procs[p].SignIn? ==>
          && w.procs[p].sid in w.db.sessions && w.procs[p].sid !in w.handedAt
          && w.db.sessions[w.procs[p].sid].tokenHash == Sha256(w.procs[p].secret))
    && (forall p, q :: p in w.procs && q in w.procs && p != q && w.procs[p].SignIn? && w.procs[q].SignIn? ==>
          w.procs[p].sid != w.procs[q].sid)
    && (forall p :: p in w.procs && !w.procs[p].SignIn? ==> w.procs[p].sid in w.handedAt)
  }

  /** The gate: a session handed out with MFA stays pending until a challenge on it succeeds. */
  ghost predicate Gated(w: World) {
    && (forall s :: s in w.handedAt ==>
          && s in w.db.sessions && w.handedAt[s] < |w.log|
          && w.log[w.handedAt[s]].HandedOut? && w.log[w.handedAt[s]].sid == s
          && (w.log[w.handedAt[s]].mfa && s !in w.challengedAt ==> w.db.sessions[s].mfaPending))
    && (forall i :: 0 <= i < |w.log| && w.log[i].HandedOut? ==> w.log[i].sid in w.handedAt && w.handedAt[w.log[i].sid] == i)
    && (forall s :: s in w.challengedAt ==>
          && s in w.handedAt && w.handedAt[s] < w.challengedAt[s] < |w.log|
          && w.log[w.challengedAt[s]].Challenged? && w.log[w.challengedAt[s]].sid == s)
  }

  /** Admissions so far went through the gate. */
  ghost predicate AdmittedProperly(w: World) {
    forall j :: 0 <= j < |w.log| && w.log[j].Admitted? ==>
      var s := w.log[j].sid;
      && s in w.handedAt && w.handedAt[s] < j && j < |w.log| && w.handedAt[s] < |w.log|
      && w.log[w.handedAt[s]].HandedOut?
      && (w.log[w.handedAt[s]].mfa ==> s in w.challengedAt && w.challengedAt[s] < j)
  }

  ghost predicate Inv(w: World) {
    SecretsKept(w) && SignInsApart(w) && Gated(w) && AdmittedProperly(w)
  }

  /** A change that adds no row, clears no flag and leaves sign-ins and the log alone. */
  ghost predicate Quiet(w: World, w': World) {
    && SameRows(w.db.sessions, w'.db.sessions)
    && (forall s :: s in w.db.sessions ==> w'.db.sessions[s].tokenHash == w.db.sessions[s].tokenHash)
    && (forall p :: p in w'.procs ==>
          if w'.procs[p].SignIn? then
            p in w.procs && w.procs[p].SignIn? && w.procs[p].sid == w'.procs[p].sid
            && w.procs[p].secret == w'.procs[p].secret
          else w'.procs[p].sid in w.handedAt)
    && w'.drawn >= w.drawn && w'.disclosed == w.disclosed
    && w'.log == w.log && w'.handedAt == w.handedAt && w'.challengedAt == w.challengedAt
  }

  ghost predicate SameRows(t: Table, t': Table) {
    t'.Keys == t.Keys && forall s :: s in t && t[s].mfaPending ==> t'[s].mfaPending
  }

  lemma QuietKeepsInv(w: World, w': World)
    requires Inv(w) && Quiet(w, w')
    ensures Inv(w')
  {
    assert SecretsKept(w');
    assert SignInsApart(w');
    assert Gated(w');
    assert AdmittedProperly(w');
  }

  /** Checks, revocations and status changes keep hashes and flags. */
  lemma SessionStepIsQuiet(cfg: Config, db: Db, e: Sessions.Event)
    requires e.action.Check? || e.action.Revoke? || e.action.RevokeAll? || e.action.UpdateStatus? || e.action.AddUser?
    ensures var db' := Exec(cfg, db, e);
      SameRows(db.sessions, db'.sessions) &&
      forall s :: s in db.sessions ==> db'.sessions[s].tokenHash == db.sessions[s].tokenHash
  {
  }

  lemma DbStepKeepsInv(cfg: Config, w: World, e: Sessions.Event)
    requires Inv(w)
    requires e.action.Check? || e.action.Revoke? || e.action.RevokeAll? || e.action.UpdateStatus? || e.action.AddUser?
    ensures Inv(w.(db := Exec(cfg, w.db, e)))
  {
    var db' := Exec(cfg, w.db, e);
    SessionStepIsQuiet(cfg, w.db, e);
    QuietKeepsInv(w, w.(db := db'));
  }

  lemma BeginKeepsInv(w: World, a: Action)
    requires Inv(w) && a.Begin?
    ensures Inv(DoBegin(w, a))
  {
    var s := Session(a.user, Sha256(a.secret), a.createdAt, a.expiresAt, a.createdAt, false, false, a.staff);
    if InsertSession(w.db, a.sid, s).Some? && a.pid !in w.procs && a.secret !in w.drawn {
      InsertKeepsSecrets(w, DoBegin(w, a), a.pid, a.sid, a.secret, s);
      InsertKeepsRest(w, DoBegin(w, a), a.pid, a.sid, a.secret, s);
    }
  }

  /** A new session with a fresh secret and the sign-in that owns it. */
  ghost predicate Inserted(w: World, w': World, pid: nat, sid: Id, secret: string, s: Session) {
    && sid !in w.db.sessions && pid !in w.procs && secret !in w.drawn && s.tokenHash == Sha256(secret)
    && w'.db.sessions == w.db.sessions[sid := s] && w'.drawn == w.drawn + {secret} && w'.disclosed == w.disclosed
    && w'.procs == w.procs[pid := SignIn(sid, secret, Asking)]
    && w'.log == w.log && w'.handedAt == w.handedAt && w'.challengedAt == w.challengedAt
  }

  lemma InsertKeepsSecrets(w: World, w': World, pid: nat, sid: Id, secret: string, s: Session)
    requires Inv(w) && Inserted(w, w', pid, sid, secret, s)
    ensures SecretsKept(w')
  {
  }

  lemma InsertKeepsRest(w: World, w': World, pid: nat, sid: Id, secret: string, s: Session)
    requires Inv(w) && Inserted(w, w', pid, sid, secret, s)
    ensures SignInsApart(w') && Gated(w') && AdmittedProperly(w')
  {
    InsertKeepsSignIns(w, w', pid, sid, secret, s);
    InsertKeepsGate(w, w', pid, sid, secret, s);
    hide SecretsKept, SignInsApart, Gated;
  }

  lemma InsertKeepsSignIns(w: World, w': World, pid: nat, sid: Id, secret: string, s: Session)
    requires SignInsApart(w) && Gated(w) && Inserted(w, w', pid, sid, secret, s)
    ensures SignInsApart(w')
  {
  }

  lemma InsertKeepsGate(w: World, w': World, pid: nat, sid: Id, secret: string, s: Session)
    requires Gated(w) && Inserted(w, w', pid, sid, secret, s)
    ensures Gated(w')
  {
  }

  lemma HandOutKeepsSecrets(w: World, pid: nat, mfa: bool, disclose: bool)
    requires Inv(w) && pid in w.procs && w.procs[pid].SignIn?
    ensures SecretsKept(HandOut(w, pid, mfa, disclose))
    ensures SignInsApart(HandOut(w, pid, mfa, disclose))
  {
    var p := w.procs[pid];
    assert forall s :: s in w.db.sessions && s != p.sid ==> w.db.sessions[s].tokenHash.preimage != p.secret;
  }

  lemma HandOutKeepsGate(w: World, pid: nat, mfa: bool, disclose: bool)
    requires SignInsApart(w) && Gated(w) && pid in w.procs && w.procs[pid].SignIn?
    requires mfa ==> w.db.sessions[w.procs[pid].sid].mfaPending
    ensures Gated(HandOut(w, pid, mfa, disclose))
  {
    var w' := HandOut(w, pid, mfa, disclose);
    assert w.procs[pid].sid !in w.challengedAt;
    assert forall j :: 0 <= j < |w.log| ==> w'.log[j] == w.log[j];
  }

  lemma HandOutKeepsAdmissions(w: World, pid: nat, mfa: bool, disclose: bool)
    requires SignInsApart(w) && AdmittedProperly(w) && pid in w.procs && w.procs[pid].SignIn?
    ensures AdmittedProperly(HandOut(w, pid, mfa, disclose))
  {
    var w' := HandOut(w, pid, mfa, disclose);
    assert forall j :: 0 <= j < |w.log| ==> w'.log[j] == w.log[j];
  }

  lemma HandOutKeepsInv(w: World, pid: nat, mfa: bool, disclose: bool)
    requires Inv(w) && pid in w.procs && w.procs[pid].SignIn?
    requires mfa ==> w.db.sessions[w.procs[pid].sid].mfaPending
    ensures Inv(HandOut(w, pid, mfa, disclose))
  {
    HandOutKeepsSecrets(w, pid, mfa, disclose);
    HandOutKeepsGate(w, pid, mfa, disclose);
    HandOutKeepsAdmissions(w, pid, mfa, disclose);
  }

  function Flagged(w: World, pid: nat): World
    requires InPhase(w, pid, Flagging)
  {
    w.(db := w.db.(sessions := SetMfaPending(w.db.sessions, w.procs[pid].sid, true)))
  }

  lemma FlaggedKeepsInv(w: World, pid: nat)
    requires Inv(w) && InPhase(w, pid, Flagging)
    ensures Inv(Flagged(w, pid))
    ensures w.procs[pid].sid in w.db.sessions && Flagged(w, pid).db.sessions[w.procs[pid].sid].mfaPending
  {
    QuietKeepsInv(w, Flagged(w, pid));
  }

  lemma FlagKeepsInv(w: World, pid: nat, ok: bool, disclose: bool)
    requires Inv(w)
    ensures Inv(DoFlag(w, pid, ok, disclose))
  {
    hide Inv;
    if InPhase(w, pid, Flagging) {
      if ok {
        FlaggedKeepsInv(w, pid);
        HandOutKeepsInv(Flagged(w, pid), pid, true, disclose);
      } else {
        ProcsEvolveKeepInv(w, DoFlag(w, pid, ok, disclose));
      }
    }
  }

  lemma HookKeepsInv(w: World, pid: nat, ok: bool, disclose: bool)
    requires Inv(w)
    ensures Inv(DoHook(w, pid, ok, disclose))
  {
    if InPhase(w, pid, Hooking) {
      if ok {
        HandOutKeepsInv(w, pid, false, disclose);
      } else {
        QuietKeepsInv(w, DoHook(w, pid, ok, disclose));
      }
    }
  }

  /** A presentable token can only be the bearer of a session that was handed out. */
  lemma BearerWasHandedOut(cfg: Config, w: World, e: Sessions.Event)
    requires SecretsKept(w) && Accepts(cfg, w.db, e) && Presentable(w, e.action.hash.preimage)
    ensures e.action.id in w.handedAt
  {
  }

  lemma RequireKeepsInv(cfg: Config, w: World, a: Action, now: int)
    requires Inv(w) && a.RequireSession?
    ensures Inv(DoRequire(cfg, w, a, now))
  {
    if Presentable(w, a.token) {
      var e := CheckEvent(a.sid, a.token, a.lookupOk, a.wrote, now);
      var w1 := w.(db := Exec(cfg, w.db, e));
      DbStepKeepsInv(cfg, w, e);
      if Accepts(cfg, w.db, e) && !w.db.sessions[a.sid].mfaPending {
        BearerWasHandedOut(cfg, w, e);
        PendingUnchanged(cfg, w.db, e, a.sid);
        AdmitKeepsInv(w1, a.sid);
      }
    }
  }

  lemma PendingUnchanged(cfg: Config, db: Db, e: Sessions.Event, sid: Id)
    requires e.action.Check? && sid in db.sessions
    ensures sid in Exec(cfg, db, e).sessions
    ensures Exec(cfg, db, e).sessions[sid].mfaPending == db.sessions[sid].mfaPending
  {
  }

  lemma AdmitKeepsGate(w: World, sid: Id)
    requires Gated(w) && AdmittedProperly(w) && sid in w.handedAt && !w.db.sessions[sid].mfaPending
    ensures Gated(w.(log := w.log + [Admitted(sid)]))
    ensures AdmittedProperly(w.(log := w.log + [Admitted(sid)]))
  {
    var w' := w.(log := w.log + [Admitted(sid)]);
    assert forall j :: 0 <= j < |w.log| ==> w'.log[j] == w.log[j];
  }

  lemma AdmitKeepsInv(w: World, sid: Id)
    requires Inv(w) && sid in w.handedAt && !w.db.sessions[sid].mfaPending
    ensures Inv(w.(log := w.log + [Admitted(sid)]))
  {
    AdmitKeepsGate(w, sid);
  }

  lemma BeginChallengeKeepsInv(cfg: Config, w: World, a: Action, now: int)
    requires Inv(w) && a.BeginChallenge?
    ensures Inv(DoBeginChallenge(cfg, w, a, now))
  {
    if Presentable(w, a.token) && a.pid !in w.procs {
      var e := CheckEvent(a.sid, a.token, a.lookupOk, a.wrote, now);
      var w1 := w.(db := Exec(cfg, w.db, e));
      DbStepKeepsInv(cfg, w, e);
      if Accepts(cfg, w.db, e) && w.db.sessions[a.sid].mfaPending {
        BearerWasHandedOut(cfg, w, e);
        ProvingKeepsInv(w1, a.pid, a.sid, w.db.sessions[a.sid].user);
      }
    }
  }

  lemma ProvingKeepsInv(w: World, pid: nat, sid: Id, user: Id)
    requires Inv(w) && sid in w.handedAt && pid !in w.procs
    ensures Inv(w.(procs := w.procs[pid := Proving(sid, user)]))
  {
    QuietKeepsInv(w, w.(procs := w.procs[pid := Proving(sid, user)]));
  }

  /** The effect of a completed challenge. */
  ghost predicate Cleared(w: World, w': World, sid: Id, mark: Mark) {
    && sid in w.handedAt && mark.Challenged? && mark.sid == sid
    && w'.db.sessions.Keys == w.db.sessions.Keys
    && (forall s :: s in w.db.sessions ==> w'.db.sessions[s].tokenHash == w.db.sessions[s].tokenHash)
    && (forall s :: s in w.db.sessions && s != sid ==> w'.db.sessions[s].mfaPending == w.db.sessions[s].mfaPending)
    && (forall p :: p in w'.procs ==> p in w.procs && w'.procs[p] == w.procs[p])
    && w'.drawn == w.drawn && w'.disclosed == w.disclosed && w'.handedAt == w.handedAt
    && w'.log == w.log + [mark]
    && w'.challengedAt == if sid in w.challengedAt then w.challengedAt else w.challengedAt[sid := |w.log|]
  }

  lemma ClearedKeepsGate(w: World, w': World, sid: Id, mark: Mark)
    requires Gated(w) && Cleared(w, w', sid, mark)
    ensures Gated(w')
  {
    assert forall j :: 0 <= j < |w.log| ==> w'.log[j] == w.log[j];
  }

  lemma ClearedKeepsRest(w: World, w': World, sid: Id, mark: Mark)
    requires SecretsKept(w) && SignInsApart(w) && Cleared(w, w', sid, mark)
    ensures SecretsKept(w') && SignInsApart(w')
  {
  }

  lemma ClearedKeepsAdmissions(w: World, w': World, sid: Id, mark: Mark)
    requires Gated(w) && AdmittedProperly(w) && Cleared(w, w', sid, mark)
    ensures AdmittedProperly(w')
  {
    assert forall j :: 0 <= j < |w.log| ==> w'.log[j] == w.log[j];
  }

  lemma ClearedKeepsInv(w: World, w': World, sid: Id, mark: Mark)
    requires Inv(w) && Cleared(w, w', sid, mark)
    ensures Inv(w')
  {
    hide Cleared;
    ClearedKeepsGate(w, w', sid, mark);
    ClearedKeepsRest(w, w', sid, mark);
    ClearedKeepsAdmissions(w, w', sid, mark);
  }

  lemma ClearKeepsInv(w: World, pid: nat, ok: bool)
    requires Inv(w)
    ensures Inv(DoClear(w, pid, ok))
  {
    hide Inv, Cleared;
    if pid in w.procs && w.procs[pid].Clearing? {
      if ok {
        ChallengeHeldSession(w, pid);
        ClearedByStep(w, pid);
        ClearedKeepsInv(w, DoClear(w, pid, ok), w.procs[pid].sid, Challenged(w.procs[pid].sid, w.procs[pid].spent));
      } else {
        ProcsEvolveKeepInv(w, DoClear(w, pid, ok));
      }
    }
  }

  lemma ChallengeHeldSession(w: World, pid: nat)
    requires Inv(w) && pid in w.procs && !w.procs[pid].SignIn?
    ensures w.procs[pid].sid in w.handedAt
  {
  }

  lemma ClearedByStep(w: World, pid: nat)
    requires pid in w.procs && w.procs[pid].Clearing? && w.procs[pid].sid in w.handedAt
    ensures Cleared(w, DoClear(w, pid, true), w.procs[pid].sid, Challenged(w.procs[pid].sid, w.procs[pid].spent))
  {
  }

  /** What replacing the token of a handed-out session does to the table. */
  lemma ReplacedRow(cfg: Config, db: Db, e: Sessions.Event)
    requires e.action.Rotate? || e.action.Issue?
    ensures var t, t' := db.sessions, Exec(cfg, db, e).sessions;
      SameRows(t, t') && forall s :: s in t ==>
        t'[s].tokenHash == t[s].tokenHash || (s == e.action.id && t'[s].tokenHash == e.action.hash)
  {
  }

  lemma ReplaceKeepsInv(cfg: Config, w: World, a: Action, now: int)
    requires Inv(w) && a.ReplaceToken?
    ensures Inv(DoReplace(cfg, w, a, now))
  {
    if a.sid in w.handedAt && a.secret !in w.drawn {
      var act := if a.rotate then Rotate(a.sid, Sha256(a.secret), a.expiresAt) else Issue(a.sid, Sha256(a.secret));
      ReplacedRow(cfg, w.db, Sessions.Event(act, now));
      ReplacementKeepsInv(w, DoReplace(cfg, w, a, now), a.sid, a.secret);
    }
  }

  lemma ReplacementKeepsInv(w: World, w': World, sid: Id, secret: string)
    requires Inv(w) && sid in w.handedAt && secret !in w.drawn
    requires SameRows(w.db.sessions, w'.db.sessions)
    requires forall s :: s in w.db.sessions ==>
      w'.db.sessions[s].tokenHash == w.db.sessions[s].tokenHash
      || (s == sid && w'.db.sessions[s].tokenHash == Sha256(secret))
    requires w'.drawn == w.drawn + {secret} && w'.disclosed == w.disclosed + {secret}
    requires w'.procs == w.procs && w'.log == w.log && w'.handedAt == w.handedAt && w'.challengedAt == w.challengedAt
    ensures Inv(w')
  {
    assert SecretsKept(w');
    assert SignInsApart(w');
    assert Gated(w');
    assert AdmittedProperly(w');
  }

  lemma BackgroundKeepsInv(cfg: Config, w: World, a: Sessions.Action, now: int)
    requires Inv(w) && IsBackground(a)
    ensures Inv(w.(db := Exec(cfg, w.db, Sessions.Event(a, now))))
  {
    DbStepKeepsInv(cfg, w, Sessions.Event(a, now));
  }

  /** Requests come and go or move on, without starting a sign-in or changing whose session they hold. */
  ghost predicate ProcsEvolve(procs: map<nat, Proc>, procs': map<nat, Proc>) {
    forall p :: p in procs' ==> p in procs && SameOwner(procs[p], procs'[p])
  }

  predicate SameOwner(p: Proc, p': Proc) {
    p.sid == p'.sid && (p.SignIn? <==> p'.SignIn?) && (p.SignIn? ==> p.secret == p'.secret)
  }

  lemma ProcsEvolveKeepInv(w: World, w': World)
    requires Inv(w) && ProcsEvolve(w.procs, w'.procs)
    requires w'.db == w.db && w'.drawn >= w.drawn && w'.disclosed == w.disclosed
    requires w'.log == w.log && w'.handedAt == w.handedAt && w'.challengedAt == w.challengedAt
    ensures Inv(w')
  {
    assert SignInsApart(w');
  }

  predicate OnlyMovesProcs(a: Action) {
    a.AskMfa? || a.ProveTotp? || a.ProveRecovery? || a.Abandon? || a.NewRecoveryCodes?
  }

  lemma ProcStepKeepsInv(cfg: Config, w: World, e: Event)
    requires Inv(w) && OnlyMovesProcs(e.action)
    ensures Inv(Step(cfg, w, e))
  {
    hide Inv;
    ProcsEvolveKeepInv(w, Step(cfg, w, e));
  }

  lemma StepKeepsInv(cfg: Config, w: World, e: Event)
    requires Inv(w)
    ensures Inv(Step(cfg, w, e))
  {
    hide Inv;
    match e.action
    case Begin(_, _, _, _, _, _, _) => BeginKeepsInv(w, e.action);
    case Flag(pid, ok, disclose) => FlagKeepsInv(w, pid, ok, disclose);
    case Hook(pid, ok, disclose) => HookKeepsInv(w, pid, ok, disclose);
    case RequireSession(_, _, _, _) => RequireKeepsInv(cfg, w, e.action, e.now);
    case BeginChallenge(_, _, _, _, _) => BeginChallengeKeepsInv(cfg, w, e.action, e.now);
    case ClearFlag(pid, ok) => ClearKeepsInv(w, pid, ok);
    case ReplaceToken(_, _, _, _) => ReplaceKeepsInv(cfg, w, e.action, e.now);
    case Background(a) => if IsBackground(a) { BackgroundKeepsInv(cfg, w, a, e.now); }
    case _ => ProcStepKeepsInv(cfg, w, e);
  }

  lemma {:induction false} InvAlways(cfg: Config, run: seq<Event>)
    ensures Inv(Run(cfg, run))
  {
    if run != [] {
      InvAlways(cfg, run[..|run| - 1]);
      StepKeepsInv(cfg, Run(cfg, run[..|run| - 1]), run[|run| - 1]);
    }
  }

  /** Every admission by the session gate follows the one hand-out of that session. If the user had MFA at
      that sign-in, a challenge on that very session has succeeded in between: no hand-out with MFA is ever
      followed by an admission without a challenge. */
  lemma GateHolds(cfg: Config, run: seq<Event>, w: World, j: nat)
    requires Reached(cfg, run, w) && j < |w.log| && w.log[j].Admitted?
    ensures exists i :: 0 <= i < j && w.log[i].HandedOut? && w.log[i].sid == w.log[j].sid
    ensures forall i :: 0 <= i < |w.log| && w.log[i].HandedOut? && w.log[i].sid == w.log[j].sid ==>
      i < j && (w.log[i].mfa ==> ChallengedBetween(w.log, i, j, w.log[j].sid))
  {
    ReachedIsRun(cfg, run, w);
    InvAlways(cfg, run);
    hide Run, SecretsKept, SignInsApart;
    var sid := w.log[j].sid;
    assert w.log[w.handedAt[sid]].HandedOut?;
    if w.log[w.handedAt[sid]].mfa {
      assert w.log[w.challengedAt[sid]].Challenged?;
    }
  }

  ghost predicate ChallengedBetween(log: seq<Mark>, i: int, j: int, sid: Id)
    requires j <= |log| && 0 <= i
  {
    exists k :: i < k < j && log[k].Challenged? && log[k].sid == sid
  }
}
