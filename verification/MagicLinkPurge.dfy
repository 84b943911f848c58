/** The background purge is invisible: a run with its purges taken out ends in the same state, up to
    expired rows that nothing can match any more. */
module MagicLinkPurge {
  import opened Prelude
  import opened Pkce
  import opened MagicLink
  import opened MagicLinkRuns
  import opened MagicLinkAgreement
  import S = Sessions

  /** `w` lacks only expired rows of `w0` and is otherwise the same state. */
  ghost predicate Lags(w: World, w0: World) {
    && w0 == w.(tokens := w0.tokens, codes := w0.codes)
    && TokensLag(w.tokens, w0.tokens, w.now) && CodesLag(w.codes, w0.codes, w.now)
  }

  ghost predicate TokensLag(t: Tokens, t0: Tokens, now: int) {
    && (forall h :: h in t ==> h in t0 && t0[h] == t[h])
    && (forall h :: h in t0 && h !in t ==> t0[h].expiresAt < now)
  }

  ghost predicate CodesLag(c: Codes, c0: Codes, now: int) {
    && (forall h :: h in c ==> h in c0 && c0[h] == c[h])
    && (forall h :: h in c0 && h !in c ==> c0[h].expiresAt < now)
  }

  /** The same state with other token and code tables. */
  function With(w: World, tokens: Tokens, codes: Codes): World {
    w.(tokens := tokens, codes := codes)
  }

  // ----- a step of one system is the same step of the other -----

  lemma StoredTokenLags(w: World, w0: World, h: Digest, row: Token, a: Asked)
    requires Lags(w, w0) && h !in w0.tokens
    ensures Lags(TokenStored(w, h, row, a), TokenStored(w0, h, row, a))
  {
  }

  lemma FreshToken(w: World, w0: World, secret: string)
    requires Lags(w, w0) && Known(w0) && secret !in w.secrets
    ensures Sha256(secret) !in w.tokens && Sha256(secret) !in w0.tokens
  {
  }

  lemma RequestLags(cfg: Config, w: World, w0: World, r: LinkRequest, allowed: bool, secret: string, stamp: int, stored: bool)
    requires Lags(w, w0) && Known(w0)
    ensures Lags(DoRequest(cfg, w, r, allowed, secret, stamp, stored), DoRequest(cfg, w0, r, allowed, secret, stamp, stored))
  {
    assert w0.secrets == w.secrets && w0.now == w.now;
    if secret !in w.secrets && Acceptable(r) {
      FreshToken(w, w0, secret);
      StoredTokenLags(w, w0, Sha256(secret), TokenFor(cfg, r, stamp), Asked(Normalize(r.email), r.tenant.value, r.challenge, r.redirect, w.now));
    }
    hide Acceptable, Normalize, TokenFor, Known, Lags, TokenStored;
  }

  lemma BeginVerifyLags(w: World, w0: World, pid: nat, token: string, tenant: Tenant)
    requires Lags(w, w0)
    ensures Lags(DoBeginVerify(w, pid, token, tenant), DoBeginVerify(w0, pid, token, tenant))
  {
    hide TokenShape, Trim;
  }

  lemma CodeTakenLags(w: World, w0: World, c: Digest, proved: bool)
    requires Lags(w, w0) && c in w.codes
    ensures Lags(CodeTaken(w, c, proved), CodeTaken(w0, c, proved))
  {
  }

  lemma CheckedLags(cfg: Config, w: World, w0: World, pid: nat, c: Digest, row: Code, origin: Option<string>, verifier: string)
    requires Lags(w, w0)
    ensures Lags(Checked(cfg, w, pid, c, row, origin, verifier), Checked(cfg, w0, pid, c, row, origin, verifier))
  {
    hide Proves;
  }

  lemma BeginExchangeLags(cfg: Config, w: World, w0: World, pid: nat, code: string, origin: Option<string>, verifier: string)
    requires Lags(w, w0)
    ensures Lags(DoBeginExchange(cfg, w, pid, code, origin, verifier), DoBeginExchange(cfg, w0, pid, code, origin, verifier))
  {
    var c := Sha256(code);
    SameMatches(w, w0, c);
    hide CodeShape, IsCodeVerifier, Proves, Lags, Checked, CodeTaken, CodeMatches;
    if CodeMatches(w.codes, c, w.now) {
      var proved := Proves(cfg, w.codes[c], origin, verifier);
      CodeTakenLags(w, w0, c, proved);
      CheckedLags(cfg, CodeTaken(w, c, proved), CodeTaken(w0, c, proved), pid, c, w.codes[c], origin, verifier);
    }
  }

  lemma SameMatches(w: World, w0: World, c: Digest)
    requires Lags(w, w0)
    ensures w0.procs == w.procs && (CodeMatches(w0.codes, c, w0.now) <==> CodeMatches(w.codes, c, w.now))
    ensures CodeMatches(w.codes, c, w.now) ==> c in w.codes && c in w0.codes && w0.codes[c] == w.codes[c]
  {
  }

  lemma DeleteLags(w: World, w0: World, u: Id)
    requires Lags(w, w0)
    ensures Lags(DeleteUser(w, u), DeleteUser(w0, u))
  {
  }

  /** `x0` is `x` with the other tables, and `x` has the tables of `w`. */
  ghost predicate Beside(w: World, x: World, x0: World, t: Tokens, c: Codes) {
    x0 == With(x, t, c) && x.tokens == w.tokens && x.codes == w.codes && x.now == w.now
  }

  lemma MoveCommutes(w: World, x: World, pid: nat, s: VerifyStage, t: Tokens, c: Codes)
    requires x.tokens == w.tokens && x.codes == w.codes && x.now == w.now
    ensures Beside(w, End(x, pid), End(With(x, t, c), pid), t, c)
    ensures pid in x.procs && x.procs[pid].Verifying? ==> Beside(w, Goto(x, pid, s), Goto(With(x, t, c), pid, s), t, c)
  {
  }

  lemma FieldsWith(w: World, t: Tokens, c: Codes)
    ensures var x := With(w, t, c);
      && x.procs == w.procs && x.users == w.users && x.sessions == w.sessions && x.secrets == w.secrets
      && x.userIds == w.userIds && x.sessionIds == w.sessionIds && x.now == w.now
  {
  }

  lemma VerifiedCommutes(w: World, u: Id, t: Tokens, c: Codes)
    ensures Beside(w, Verified(w, u), Verified(With(w, t, c), u), t, c) && Verified(w, u).procs == w.procs
  {
  }

  lemma NewUserCommutes(w: World, u: Id, email: string, t: Tokens, c: Codes)
    ensures Beside(w, WithUser(w, u, email), WithUser(With(w, t, c), u, email), t, c) && WithUser(w, u, email).procs == w.procs
  {
  }

  lemma FoundCommutes(w: World, pid: nat, u: Id, t: Tokens, c: Codes)
    requires pid in w.procs && w.procs[pid].Verifying? && u in w.users
    ensures Beside(w, Found(w, pid, u), Found(With(w, t, c), pid, u), t, c)
  {
    hide Goto, End, With, Beside;
    FieldsWith(w, t, c);
    MoveCommutes(w, w, pid, Gate(u, w.users[u].verified), t, c);
  }

  lemma DestinationCommutes(cfg: Config, w: World, x: World, pid: nat, u: Id, t: Tokens, c: Codes)
    requires pid in x.procs && x.procs[pid].Verifying? && x.tokens == w.tokens && x.codes == w.codes && x.now == w.now
    ensures Beside(w, ChooseDestination(cfg, x, pid, u), ChooseDestination(cfg, With(x, t, c), pid, u), t, c)
  {
    hide Goto, End, With, Beside, Destination;
    FieldsWith(x, t, c);
    MoveCommutes(w, x, pid, Open(u), t, c);
  }

  lemma AccountCommutes(cfg: Config, w: World, pid: nat, e: Env, t: Tokens, c: Codes)
    requires pid in w.procs && w.procs[pid].Verifying? && !w.procs[pid].stage.Undo?
    ensures Beside(w, StepAccount(cfg, w, pid, e), StepAccount(cfg, With(w, t, c), pid, e), t, c)
  {
    var p := w.procs[pid];
    assert Beside(w, w, With(w, t, c), t, c);
    FieldsWith(w, t, c);
    hide Oldest, NoMatch, EmailTaken, Goto, End, Found, ChooseDestination, Verified, With, Beside;
    MoveCommutes(w, w, pid, Find, t, c);
    match p.stage
    case Find =>
      MoveCommutes(w, w, pid, Insert, t, c);
      if Oldest(w.users, p.rec.email, e.id) { FoundCommutes(w, pid, e.id, t, c); }
    case Insert => InsertCommutes(cfg, w, pid, e, t, c);
    case Profile(u) => MoveCommutes(w, w, pid, if e.fails then Undo(u) else Confirm(u), t, c);
    case Confirm(u) => ConfirmCommutes(w, pid, u, e.fails, t, c);
    case Hook(u) => MoveCommutes(w, w, pid, if e.fails then Undo(u) else Fetch(u), t, c);
    case Refind => if Oldest(w.users, p.rec.email, e.id) { FoundCommutes(w, pid, e.id, t, c); }
    case Fetch(u) => DestinationCommutes(cfg, w, w, pid, u, t, c);
    case _ =>
  }

  lemma InsertCommutes(cfg: Config, w: World, pid: nat, e: Env, t: Tokens, c: Codes)
    requires pid in w.procs && w.procs[pid].Verifying? && w.procs[pid].stage.Insert?
    ensures Beside(w, StepAccount(cfg, w, pid, e), StepAccount(cfg, With(w, t, c), pid, e), t, c)
  {
    var email := w.procs[pid].rec.email;
    FieldsWith(w, t, c);
    NewUserCommutes(w, e.id, email, t, c);
    MoveCommutes(w, w, pid, Refind, t, c);
    MoveCommutes(w, WithUser(w, e.id, email), pid, Profile(e.id), t, c);
    hide EmailTaken, Goto, With;
  }

  lemma ConfirmCommutes(w: World, pid: nat, u: Id, fails: bool, t: Tokens, c: Codes)
    requires pid in w.procs && w.procs[pid].Verifying?
    ensures Beside(w, Goto(if fails then w else Verified(w, u), pid, Hook(u)),
                   Goto(if fails then With(w, t, c) else Verified(With(w, t, c), u), pid, Hook(u)), t, c)
  {
    VerifiedCommutes(w, u, t, c);
    FieldsWith(w, t, c);
    MoveCommutes(w, w, pid, Hook(u), t, c);
    MoveCommutes(w, Verified(w, u), pid, Hook(u), t, c);
    hide Goto, With, Verified;
  }

  lemma SessionsCommute(w: World, x: S.Table, t: Tokens, c: Codes)
    ensures Beside(w, w.(sessions := x), With(w, t, c).(sessions := x), t, c)
  {
  }

  lemma NewSessionCommutes(w: World, u: Id, e: Env, t: Tokens, c: Codes)
    ensures Beside(w, WithSession(w, u, e), WithSession(With(w, t, c), u, e), t, c) && WithSession(w, u, e).procs == w.procs
  {
  }

  lemma OpenCommutes(w: World, pid: nat, u: Id, e: Env, t: Tokens, c: Codes)
    requires pid in w.procs && w.procs[pid].Verifying?
    ensures Beside(w, OpenSession(w, pid, u, e), OpenSession(With(w, t, c), pid, u, e), t, c)
  {
    FieldsWith(w, t, c);
    NewSessionCommutes(w, u, e, t, c);
    MoveCommutes(w, w, pid, Find, t, c);
    MoveCommutes(w, WithSession(w, u, e), pid, AskMfa(u, e.id), t, c);
    hide S.HashFree, Goto, End, With;
  }

  /** Moving on, or ending, after a statement on the sessions table. */
  lemma AfterSessions(w: World, x: S.Table, pid: nat, s: VerifyStage, t: Tokens, c: Codes)
    requires pid in w.procs && w.procs[pid].Verifying?
    ensures Beside(w, Goto(w.(sessions := x), pid, s), Goto(With(w, t, c).(sessions := x), pid, s), t, c)
    ensures Beside(w, End(w.(sessions := x), pid), End(With(w, t, c).(sessions := x), pid), t, c)
  {
    SessionsCommute(w, x, t, c);
    MoveCommutes(w, w.(sessions := x), pid, s, t, c);
    hide Goto, End;
  }

  lemma MarkCommutes(cfg: Config, w: World, pid: nat, u: Id, t: Tokens, c: Codes)
    requires pid in w.procs && w.procs[pid].Verifying?
    ensures Beside(w, ChooseDestination(cfg, Verified(w, u), pid, u), ChooseDestination(cfg, Verified(With(w, t, c), u), pid, u), t, c)
  {
    VerifiedCommutes(w, u, t, c);
    FieldsWith(w, t, c);
    DestinationCommutes(cfg, w, Verified(w, u), pid, u, t, c);
    hide With, Verified, ChooseDestination;
  }

  lemma SessionCommutes(cfg: Config, w: World, pid: nat, e: Env, t: Tokens, c: Codes)
    requires pid in w.procs && w.procs[pid].Verifying? && !w.procs[pid].stage.Mint?
    ensures Beside(w, StepSession(cfg, w, pid, e), StepSession(cfg, With(w, t, c), pid, e), t, c)
  {
    var p := w.procs[pid];
    assert Beside(w, w, With(w, t, c), t, c);
    FieldsWith(w, t, c);
    hide S.HashFree, S.RevokeForUser, S.RevokeById, S.SetMfaPending;
    hide Goto, End, OpenSession, ChooseDestination, Verified, With, Beside;
    MoveCommutes(w, w, pid, Find, t, c);
    match p.stage
    case Gate(u, verified) =>
      MoveCommutes(w, w, pid, RevokeOld(u), t, c);
      DestinationCommutes(cfg, w, w, pid, u, t, c);
    case RevokeOld(u) => AfterSessions(w, S.RevokeForUser(w.sessions, u, None), pid, MarkVerified(u), t, c);
    case MarkVerified(u) => MarkCommutes(cfg, w, pid, u, t, c);
    case Open(u) => OpenCommutes(w, pid, u, e, t, c);
    case AskMfa(u, sid) => MoveCommutes(w, w, pid, if !e.fails && e.yes then FlagMfa(u, sid) else LoginHook(u, sid), t, c);
    case FlagMfa(u, sid) => AfterSessions(w, S.SetMfaPending(w.sessions, sid, true), pid, Mint(u, sid), t, c);
    case LoginHook(u, sid) => MoveCommutes(w, w, pid, if e.fails then DropSession(sid) else Mint(u, sid), t, c);
    case DropSession(sid) => AfterSessions(w, S.RevokeById(w.sessions, sid), pid, Find, t, c);
    case _ =>
  }

  lemma IssueCommutes(w: World, pid: nat, e: Env, t: Tokens, c: Codes)
    requires pid in w.procs && w.procs[pid].Exchanging? && w.procs[pid].step.Issue?
    ensures Beside(w, StepExchange(w, pid, e), StepExchange(With(w, t, c), pid, e), t, c)
  {
    hide S.IssueToken, S.Live;
    if e.fails || e.secret in w.secrets {
      MoveCommutes(w, w, pid, Find, t, c);
    }
  }

  lemma RefusalCommutes(w: World, pid: nat, e: Env, t: Tokens, c: Codes)
    requires pid in w.procs && w.procs[pid].Exchanging? && w.procs[pid].step.ReadUser?
    requires !MayComplete(w, w.procs[pid].step.user, e.fails)
    ensures Beside(w, StepExchange(w, pid, e), StepExchange(With(w, t, c), pid, e), t, c)
  {
  }

  lemma CompletionCommutes(w: World, pid: nat, e: Env, t: Tokens, c: Codes)
    requires pid in w.procs && w.procs[pid].Exchanging? && w.procs[pid].step.ReadUser?
    requires MayComplete(w, w.procs[pid].step.user, e.fails)
    ensures Beside(w, StepExchange(w, pid, e), StepExchange(With(w, t, c), pid, e), t, c)
  {
  }

  lemma ExchangeCommutes(w: World, pid: nat, e: Env, t: Tokens, c: Codes)
    requires pid in w.procs && w.procs[pid].Exchanging?
    ensures Beside(w, StepExchange(w, pid, e), StepExchange(With(w, t, c), pid, e), t, c)
  {
    hide StepExchange, With, Beside, MayComplete;
    match w.procs[pid].step
    case Issue => IssueCommutes(w, pid, e, t, c);
    case ReadUser(u) =>
      if MayComplete(w, u, e.fails) {
        CompletionCommutes(w, pid, e, t, c);
      } else {
        RefusalCommutes(w, pid, e, t, c);
      }
    case DropIssued => DropCommutes(w, pid, e, t, c);
  }

  lemma DropCommutes(w: World, pid: nat, e: Env, t: Tokens, c: Codes)
    requires pid in w.procs && w.procs[pid].Exchanging? && w.procs[pid].step.DropIssued?
    ensures Beside(w, StepExchange(w, pid, e), StepExchange(With(w, t, c), pid, e), t, c)
  {
    hide S.RevokeById;
  }

  lemma AddUserCommutes(w: World, s: Statement, t: Tokens, c: Codes)
    requires s.AddUser?
    ensures Beside(w, DoStatement(w, s), DoStatement(With(w, t, c), s), t, c)
  {
    hide EmailTaken;
  }

  lemma SetStatusCommutes(w: World, s: Statement, t: Tokens, c: Codes)
    requires s.SetStatus?
    ensures Beside(w, DoStatement(w, s), DoStatement(With(w, t, c), s), t, c)
  {
  }

  lemma VerifyEmailCommutes(w: World, s: Statement, t: Tokens, c: Codes)
    requires s.VerifyEmail?
    ensures Beside(w, DoStatement(w, s), DoStatement(With(w, t, c), s), t, c)
  {
    hide Verified, With, Beside;
    VerifiedCommutes(w, s.user, t, c);
  }

  lemma AnonymizeCommutes(w: World, s: Statement, t: Tokens, c: Codes)
    requires s.Anonymize?
    ensures Beside(w, DoStatement(w, s), DoStatement(With(w, t, c), s), t, c)
  {
    hide EmailTaken, Placeholder;
  }

  lemma RevokeCommutes(w: World, s: Statement, t: Tokens, c: Codes)
    requires s.Revoke? || s.RevokeUser?
    ensures Beside(w, DoStatement(w, s), DoStatement(With(w, t, c), s), t, c)
  {
    hide S.RevokeById, S.RevokeForUser;
  }

  lemma StatementCommutes(w: World, s: Statement, t: Tokens, c: Codes)
    requires !s.RemoveUser?
    ensures Beside(w, DoStatement(w, s), DoStatement(With(w, t, c), s), t, c)
  {
    hide DoStatement, With, Beside;
    match s
    case Rotate(_, _, _) => RotateCommutes(w, s, t, c);
    case AddSession(_, _, _, _) => AddSessionCommutes(w, s, t, c);
    case Anonymize(_) => AnonymizeCommutes(w, s, t, c);
    case Revoke(_) => RevokeCommutes(w, s, t, c);
    case RevokeUser(_, _) => RevokeCommutes(w, s, t, c);
    case AddUser(_, _, _) => AddUserCommutes(w, s, t, c);
    case SetStatus(_, _) => SetStatusCommutes(w, s, t, c);
    case VerifyEmail(_) => VerifyEmailCommutes(w, s, t, c);
  }

  lemma RotateCommutes(w: World, s: Statement, t: Tokens, c: Codes)
    requires s.Rotate?
    ensures Beside(w, DoStatement(w, s), DoStatement(With(w, t, c), s), t, c)
  {
    hide S.RotateToken;
  }

  lemma AddSessionCommutes(w: World, s: Statement, t: Tokens, c: Codes)
    requires s.AddSession?
    ensures Beside(w, DoStatement(w, s), DoStatement(With(w, t, c), s), t, c)
  {
    hide S.HashFree;
  }

  function CodeStored(w: World, pid: nat, secret: string, m: Minted): World {
    w.(codes := w.codes[Sha256(secret) := MintRow(m)], secrets := w.secrets + {secret}, procs := w.procs - {pid},
       mints := w.mints[Sha256(secret) := m])
  }

  predicate Storable(w: World, secret: string, sid: Id) {
    Sha256(secret) !in w.codes && sid in w.sessions
  }

  predicate Mintable(cfg: Config, rec: Token, secrets: set<string>, e: Env, now: int) {
    var dest := Destination(cfg, rec.redirect);
    dest.Some? && dest.value.origin.Some? && IsCodeChallenge(rec.challenge) && !e.fails && e.secret !in secrets && e.stamp <= now
  }

  lemma MintParts(cfg: Config, w: World, pid: nat, u: Id, sid: Id, e: Env)
    requires pid in w.procs && w.procs[pid].Verifying?
    ensures MintCode(cfg, w, pid, u, sid, e) ==
      if Mintable(cfg, w.procs[pid].rec, w.secrets, e, w.now) && Storable(w, e.secret, sid) then
        CodeStored(w, pid, e.secret, MintRecord(cfg, w, pid, u, sid, e))
      else Goto(w, pid, DropSession(sid))
  {
    hide Destination, IsCodeChallenge;
  }

  lemma CodeStoredLags(w: World, w0: World, pid: nat, secret: string, m: Minted)
    requires Lags(w, w0)
    ensures Lags(CodeStored(w, pid, secret, m), CodeStored(w0, pid, secret, m))
  {
  }

  lemma DropLags(w: World, w0: World, pid: nat, sid: Id)
    requires Lags(w, w0) && pid in w.procs && w.procs[pid].Verifying?
    ensures Lags(Goto(w, pid, DropSession(sid)), Goto(w0, pid, DropSession(sid)))
  {
  }

  /** With a fresh secret, a code can be stored in one system when it can in the other. */
  lemma SameStorable(w: World, w0: World, secret: string, sid: Id)
    requires Lags(w, w0) && Known(w0)
    ensures w0.procs == w.procs && w0.secrets == w.secrets && w0.now == w.now
    ensures secret !in w.secrets ==> (Storable(w, secret, sid) <==> Storable(w0, secret, sid))
  {
  }

  lemma MintLags(cfg: Config, w: World, w0: World, pid: nat, u: Id, sid: Id, e: Env)
    requires Lags(w, w0) && Known(w0) && pid in w.procs && w.procs[pid].Verifying?
    ensures Lags(MintCode(cfg, w, pid, u, sid, e), MintCode(cfg, w0, pid, u, sid, e))
  {
    SameStorable(w, w0, e.secret, sid);
    MintParts(cfg, w, pid, u, sid, e);
    MintParts(cfg, w0, pid, u, sid, e);
    hide Lags, Known, Storable, MintCode, Goto, CodeStored, Destination, IsCodeChallenge;
    DropLags(w, w0, pid, sid);
    CodeStoredLags(w, w0, pid, e.secret, MintRecord(cfg, w, pid, u, sid, e));
  }

  // ----- whole runs -----

  /** Steps beside each other keep the lag. */
  lemma BesideLags(w: World, w0: World, x: World, x0: World)
    requires Lags(w, w0) && Beside(w, x, x0, w0.tokens, w0.codes)
    ensures Lags(x, x0)
  {
  }

  lemma LagIsWith(w: World, w0: World)
    requires Lags(w, w0)
    ensures w0 == With(w, w0.tokens, w0.codes) && w0.procs == w.procs
  {
  }

  lemma UndoLags(w: World, w0: World, pid: nat, u: Id)
    requires Lags(w, w0) && pid in w.procs && w.procs[pid].Verifying?
    ensures Lags(Goto(DeleteUser(w, u), pid, Refind), Goto(DeleteUser(w0, u), pid, Refind))
  {
    DeleteLags(w, w0, u);
  }

  lemma VerifyLags(cfg: Config, w: World, w0: World, pid: nat, e: Env)
    requires Lags(w, w0) && Known(w0) && pid in w.procs && w.procs[pid].Verifying?
    ensures Lags(DoContinue(cfg, w, pid, e), DoContinue(cfg, w0, pid, e))
  {
    LagIsWith(w, w0);
    hide Lags, Known, Beside, With, StepExchange, MintCode, DeleteUser, Goto, ChooseDestination, Verified, OpenSession, Found;
    var p := w.procs[pid];
    if p.stage.Undo? {
      UndoLags(w, w0, pid, p.stage.user);
    } else if p.stage.Mint? {
      MintLags(cfg, w, w0, pid, p.stage.user, p.stage.sid, e);
    } else {
      PlainStepLags(cfg, w, w0, pid, e);
    }
  }

  lemma PlainStepLags(cfg: Config, w: World, w0: World, pid: nat, e: Env)
    requires Lags(w, w0) && pid in w.procs && w.procs[pid].Verifying? && !w.procs[pid].stage.Undo? && !w.procs[pid].stage.Mint?
    ensures Lags(DoContinue(cfg, w, pid, e), DoContinue(cfg, w0, pid, e))
  {
    LagIsWith(w, w0);
    hide Lags, Beside, With, StepAccount, StepSession;
    AccountCommutes(cfg, w, pid, e, w0.tokens, w0.codes);
    SessionCommutes(cfg, w, pid, e, w0.tokens, w0.codes);
    if InAccountPhase(w.procs[pid].stage) {
      BesideLags(w, w0, StepAccount(cfg, w, pid, e), StepAccount(cfg, w0, pid, e));
    } else {
      BesideLags(w, w0, StepSession(cfg, w, pid, e), StepSession(cfg, w0, pid, e));
    }
  }

  lemma ContinueLags(cfg: Config, w: World, w0: World, pid: nat, e: Env)
    requires Lags(w, w0) && Known(w0)
    ensures Lags(DoContinue(cfg, w, pid, e), DoContinue(cfg, w0, pid, e))
  {
    LagIsWith(w, w0);
    hide Lags, Known, Beside, With, StepExchange, StepAccount, StepSession;
    if pid in w.procs {
      if w.procs[pid].Exchanging? {
        ExchangeCommutes(w, pid, e, w0.tokens, w0.codes);
        BesideLags(w, w0, StepExchange(w, pid, e), StepExchange(w0, pid, e));
      } else {
        VerifyLags(cfg, w, w0, pid, e);
      }
    }
  }

  lemma StatementLags(w: World, w0: World, s: Statement)
    requires Lags(w, w0)
    ensures Lags(DoStatement(w, s), DoStatement(w0, s))
  {
    LagIsWith(w, w0);
    if s.RemoveUser? {
      DeleteLags(w, w0, s.user);
    } else {
      hide Lags, Beside, With, DoStatement;
      StatementCommutes(w, s, w0.tokens, w0.codes);
      BesideLags(w, w0, DoStatement(w, s), DoStatement(w0, s));
    }
  }

  lemma EndLags(w: World, w0: World, pid: nat)
    requires Lags(w, w0)
    ensures Lags(End(w, pid), End(w0, pid))
  {
  }

  lemma TickLags(w: World, w0: World, d: nat)
    requires Lags(w, w0)
    ensures Lags(w.(now := w.now + d), w0.(now := w0.now + d))
  {
  }

  /** A purge of the one system against nothing in the other. */
  lemma PurgeLags(w: World, w0: World, codes: bool, before: int)
    requires Lags(w, w0)
    ensures Lags(DoPurge(w, codes, before), w0)
  {
  }

  lemma StepLags(cfg: Config, w: World, w0: World, a: Action)
    requires Lags(w, w0) && Known(w0) && !a.Purge?
    ensures Lags(Step(cfg, w, a), Step(cfg, w0, a))
  {
    hide Lags, Known, DoRequest, DoBeginVerify, DoBeginExchange, DoContinue, DoStatement, End;
    match a
    case Request(r, allowed, secret, stamp, stored) => RequestLags(cfg, w, w0, r, allowed, secret, stamp, stored);
    case BeginVerify(pid, token, tenant) => BeginVerifyLags(w, w0, pid, token, tenant);
    case BeginExchange(pid, code, origin, verifier) => BeginExchangeLags(cfg, w, w0, pid, code, origin, verifier);
    case Continue(pid, e) => ContinueLags(cfg, w, w0, pid, e);
    case Other(s) => StatementLags(w, w0, s);
    case Abandon(pid) => EndLags(w, w0, pid);
    case Tick(d) => TickLags(w, w0, d);
  }

  /** The run with every purge taken out. */
  function WithoutPurges(run: seq<Action>): seq<Action> {
    if run == [] then []
    else
      var before := WithoutPurges(run[..|run| - 1]);
      if run[|run| - 1].Purge? then before else before + [run[|run| - 1]]
  }

  /** Purging changes nothing but the presence of expired rows: every process, user, session, record of a
      request, code or exchange, and every consumption is the same with and without the purges. */
  lemma {:induction false} PurgeIsInvisible(cfg: Config, run: seq<Action>)
    ensures Lags(Run(cfg, run), Run(cfg, WithoutPurges(run)))
  {
    if run != [] {
      var before := run[..|run| - 1];
      var a := run[|run| - 1];
      PurgeIsInvisible(cfg, before);
      hide Lags, Step;
      if a.Purge? {
        PurgeStepLags(cfg, Run(cfg, before), Run(cfg, WithoutPurges(before)), a);
      } else {
        KnownAlways(cfg, WithoutPurges(before));
        StepLags(cfg, Run(cfg, before), Run(cfg, WithoutPurges(before)), a);
        RunSnoc(cfg, WithoutPurges(before), a);
      }
    }
  }

  lemma PurgeStepLags(cfg: Config, w: World, w0: World, a: Action)
    requires Lags(w, w0) && a.Purge?
    ensures Lags(Step(cfg, w, a), w0)
  {
    hide Lags, DoPurge;
    PurgeLags(w, w0, a.codes, a.before);
  }

  lemma KnownAlways(cfg: Config, run: seq<Action>)
    ensures Known(Run(cfg, run))
  {
    InvAlways(cfg, run);
    hide Run;
  }

  /** In particular the observable record is the same, and so is the answer to any later attempt. */
  lemma PurgeChangesNoResult(cfg: Config, run: seq<Action>, w: World, w0: World, code: string, token: string, tenant: Option<Id>)
    requires Reached(cfg, run, w) && Reached(cfg, WithoutPurges(run), w0)
    ensures w.exchanges == w0.exchanges && w.uses == w0.uses && w.requests == w0.requests && w.mints == w0.mints
    ensures w.users == w0.users && w.sessions == w0.sessions && w.procs == w0.procs
    ensures CodeMatches(w.codes, Sha256(code), w.now) <==> CodeMatches(w0.codes, Sha256(code), w0.now)
    ensures TokenMatches(w.tokens, Sha256(token), tenant, w.now) <==> TokenMatches(w0.tokens, Sha256(token), tenant, w0.now)
  {
    ReachedIsRun(cfg, run, w);
    ReachedIsRun(cfg, WithoutPurges(run), w0);
    PurgeIsInvisible(cfg, run);
    hide Run;
  }

  /** After a purge at `before` exactly the rows that expire no earlier are left. */
  lemma PurgeLeavesUnexpired(w: World, before: int, h: Digest)
    requires before <= w.now
    ensures h in DoPurge(w, false, before).tokens <==> h in w.tokens && w.tokens[h].expiresAt >= before
    ensures h in DoPurge(w, true, before).codes <==> h in w.codes && w.codes[h].expiresAt >= before
  {
  }

  /** After `PurgeExpired` at the clock, whatever was purged before, exactly those rows are left that the
      system without purges has and that have not expired. */
  lemma PurgeIsExact(cfg: Config, run: seq<Action>, w: World, w0: World, h: Digest)
    requires Reached(cfg, run, w) && Reached(cfg, WithoutPurges(run), w0)
    ensures var w' := DoPurge(DoPurge(w, false, w.now), true, w.now);
      && (h in w'.tokens <==> h in w0.tokens && w0.tokens[h].expiresAt >= w.now)
      && (h in w'.codes <==> h in w0.codes && w0.codes[h].expiresAt >= w.now)
  {
    ReachedIsRun(cfg, run, w);
    ReachedIsRun(cfg, WithoutPurges(run), w0);
    PurgeIsInvisible(cfg, run);
    hide Run;
    PurgeLeavesUnexpired(w, w.now, h);
    PurgeLeavesUnexpired(DoPurge(w, false, w.now), w.now, h);
  }
}
