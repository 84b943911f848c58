/** The magic-link repositories and service as they run. Every call carries out steps of the protocol,
    so what holds of all its runs holds of every history of calls. */
module MagicLinkService {
  import opened Prelude
  import opened Base64
  import opened Pkce
  import opened MagicLink
  import A = MagicLinkAgreement
  import S = Sessions

  class MagicLinkRepo {
    var rows: Tokens

    constructor ()
      ensures rows == map[]
    {
      rows := map[];
    }

    method Create(h: Digest, row: Token, fails: bool) returns (ok: bool)
      modifies this
      ensures ok <==> !fails && h !in old(rows)
      ensures rows == if ok then old(rows)[h := row] else old(rows)
    {
      if fails || h in rows {
        return false;
      }
      rows := rows[h := row];
      return true;
    }

    /** Returns the row as it was, exactly when it was live, unconsumed and of the given organization. */
    method Consume(h: Digest, org: Option<Id>, now: int) returns (row: Option<Token>)
      modifies this
      ensures row.Some? <==> TokenMatches(old(rows), h, org, now)
      ensures row.Some? <==>
        h in old(rows) && !old(rows)[h].consumed && now < old(rows)[h].expiresAt && (org.Some? ==> org.value == old(rows)[h].org)
      ensures row.Some? ==>
        row.value == old(rows)[h] && rows == MarkToken(old(rows), h) && rows == old(rows)[h := old(rows)[h].(consumed := true)]
      ensures row.None? ==> rows == old(rows)
    {
      if h in rows && !rows[h].consumed && rows[h].expiresAt > now && (org.None? || org.value == rows[h].org) {
        row := Some(rows[h]);
        rows := rows[h := rows[h].(consumed := true)];
      } else {
        row := None;
      }
    }

    method DeleteExpired(before: int) returns (n: nat)
      modifies this
      ensures rows == PurgeTokens(old(rows), before)
      ensures forall h :: (h in rows <==> h in old(rows) && old(rows)[h].expiresAt >= before) && (h in rows ==> rows[h] == old(rows)[h])
      ensures n == |set h | h in old(rows) && old(rows)[h].expiresAt < before|
    {
      var gone := set h | h in rows && rows[h].expiresAt < before;
      rows := rows - gone;
      n := |gone|;
    }
  }

  class MagicLinkCodeRepo {
    var rows: Codes

    constructor ()
      ensures rows == map[]
    {
      rows := map[];
    }

    method Create(h: Digest, row: Code, sessionExists: bool, fails: bool) returns (ok: bool)
      modifies this
      ensures ok <==> !fails && sessionExists && h !in old(rows)
      ensures rows == if ok then old(rows)[h := row] else old(rows)
    {
      if fails || !sessionExists || h in rows {
        return false;
      }
      rows := rows[h := row];
      return true;
    }

    method Consume(h: Digest, now: int) returns (row: Option<Code>)
      modifies this
      ensures row.Some? <==> CodeMatches(old(rows), h, now)
      ensures row.Some? <==> h in old(rows) && !old(rows)[h].consumed && now < old(rows)[h].expiresAt
      ensures row.Some? ==>
        row.value == old(rows)[h] && rows == MarkCode(old(rows), h) && rows == old(rows)[h := old(rows)[h].(consumed := true)]
      ensures row.None? ==> rows == old(rows)
    {
      if h in rows && !rows[h].consumed && rows[h].expiresAt > now {
        row := Some(rows[h]);
        rows := rows[h := rows[h].(consumed := true)];
      } else {
        row := None;
      }
    }

    /** The foreign key: codes of deleted sessions go with them. */
    method Cascade(sessions: S.Table)
      modifies this
      ensures rows == map c | c in old(rows) && old(rows)[c].session in sessions :: old(rows)[c]
    {
      rows := map c | c in rows && rows[c].session in sessions :: rows[c];
    }

    method DeleteExpired(before: int) returns (n: nat)
      modifies this
      ensures rows == PurgeCodes(old(rows), before)
      ensures forall h :: (h in rows <==> h in old(rows) && old(rows)[h].expiresAt >= before) && (h in rows ==> rows[h] == old(rows)[h])
      ensures n == |set h | h in old(rows) && old(rows)[h].expiresAt < before|
    {
      var gone := set h | h in rows && rows[h].expiresAt < before;
      rows := rows - gone;
      n := |gone|;
    }
  }

  class Service {
    const cfg: Config
    const tokens: MagicLinkRepo
    const codes: MagicLinkCodeRepo
    var users: map<Id, User>
    var sessions: S.Table
    var clock: int
    ghost var run: seq<Action>
    ghost var w: World

    /** The stored state is what the steps taken so far lead to. No step of this service anonymizes anyone. */
    ghost predicate Valid()
      reads this, tokens, codes
    {
      && w == Run(cfg, run)
      && w.users == users && w.sessions == sessions && w.now == clock
      && w.tokens == tokens.rows && w.codes == codes.rows && w.anonymized == {}
    }

    constructor (cfg: Config)
      ensures Valid() && w == START && this.cfg == cfg && fresh(tokens) && fresh(codes)
    {
      this.cfg := cfg;
      tokens := new MagicLinkRepo();
      codes := new MagicLinkCodeRepo();
      users := map[];
      sessions := map[];
      clock := 0;
      run := [];
      w := START;
    }

    /** Records that the next action of the protocol has been carried out. */
    ghost method Take(a: Action)
      requires w == Run(cfg, run)
      modifies this`run, this`w
      ensures run == old(run) + [a] && w == Step(cfg, old(w), a) && w == Run(cfg, run)
    {
      hide Step, Run;
      RunSnoc(cfg, run, a);
      run := run + [a];
      w := Step(cfg, w, a);
    }

    /** One `process` job: after the limits, the address, the tenant and the challenge, a token row is
        stored; only then is mail sent. */
    method Process(r: LinkRequest, ipAllowed: bool, emailAllowed: bool, secret: string, stored: bool) returns (sent: bool)
      requires Valid() && secret !in w.secrets
      modifies this, tokens
      ensures Valid() && w == DoRequest(cfg, old(w), r, ipAllowed && emailAllowed, secret, old(clock), stored)
      ensures sent <==> ipAllowed && emailAllowed && Acceptable(r) && stored && Sha256(secret) !in old(tokens.rows)
      ensures sent ==> tokens.rows == old(tokens.rows)[Sha256(secret) := TokenFor(cfg, r, old(clock))]
      ensures !sent ==> tokens.rows == old(tokens.rows)
      // on the request and the table alone
      ensures sent <==> ipAllowed && emailAllowed && stored && Sha256(secret) !in old(tokens.rows) && Wanted(r)
      ensures sent ==> Remembers(cfg, r, tokens.rows[Sha256(secret)], clock)
    {
      RequestSpelledOut(cfg, r, clock);
      hide Run, Step, DoRequest, IsCodeChallenge, Normalize, Allowed, LinkTtl, Wanted, Remembers;
      RequestStep(cfg, w, r, ipAllowed && emailAllowed, secret, stored);
      sent := false;
      var email := Normalize(r.email);
      var wellFormedChallenge := ValidCodeChallenge(r.challenge);
      if r.wellFormed && 0 < |email| <= 254 && ipAllowed && emailAllowed && r.tenant.Some? && wellFormedChallenge {
        var redirect := if Allowed(cfg, r.redirect) then r.redirect else None;
        sent := tokens.Create(Sha256(secret), Token(r.tenant.value, email, redirect, r.challenge, clock, clock + LinkTtl(cfg), false), !stored);
      }
      Take(Request(r, ipAllowed && emailAllowed, secret, clock, stored));
    }

    /** Deletes expired tokens, then expired codes. Nothing else moves. */
    method PurgeExpired()
      requires Valid()
      modifies this`run, this`w, tokens, codes
      ensures Valid()
      ensures tokens.rows == PurgeTokens(old(tokens.rows), clock) && codes.rows == PurgeCodes(old(codes.rows), clock)
      ensures w == old(w).(tokens := tokens.rows, codes := codes.rows)
      ensures run == old(run) + [Purge(false, clock), Purge(true, clock)]
    {
      hide Run;
      var n := tokens.DeleteExpired(clock);
      Take(Purge(false, clock));
      n := codes.DeleteExpired(clock);
      Take(Purge(true, clock));
    }

    // ----- exchange -----

    /** Consumes the code if the attempt is well formed; then checks origin and verifier. The row is
        spent even when the checks fail. */
    method TakeCode(pid: nat, code: string, origin: Option<string>, verifier: string) returns (row: Option<Code>)
      requires Valid() && pid !in w.procs
      modifies this`run, this`w, codes
      ensures Valid() && w.users == old(w).users && w.requests == old(w).requests && w.mints == old(w).mints
      ensures w.exchanges == old(w).exchanges && w.secrets == old(w).secrets
      ensures w.procs ==
        if row.Some? then old(w).procs[pid := Exchanging(Sha256(code), row.value, verifier, row.value.origin, clock, Issue)]
        else old(w).procs
      ensures row.Some? <==> ReachesRow(old(w), code, verifier) && Proves(cfg, old(codes.rows)[Sha256(code)], origin, verifier)
      ensures row.Some? ==> row.value == old(codes.rows)[Sha256(code)]
      ensures codes.rows ==
        if ReachesRow(old(w), code, verifier) then MarkCode(old(codes.rows), Sha256(code)) else old(codes.rows)
    {
      hide Run, Step, PkceChallenge, IsCodeVerifier, IsCodeChallenge, DoBeginExchange;
      TakeStep(cfg, w, pid, code, origin, verifier);
      row := None;
      var validVerifier := ValidCodeVerifier(verifier);
      if code != "" && |code| <= MAGIC_LINK_CODE_MAX_LEN && validVerifier {
        var rec := codes.Consume(Sha256(code), clock);
        if rec.Some? && origin == Some(rec.value.origin) {
          var validChallenge := ValidCodeChallenge(rec.value.challenge);
          if validChallenge && PkceChallenge(cfg.sha, verifier) == rec.value.challenge {
            row := rec;
          }
        }
      }
      Take(BeginExchange(pid, code, origin, verifier));
    }

    /** `IssueSessionToken`: replaces the bearer of a live session. */
    method IssueToken(pid: nat, sid: Id, secret: string, fails: bool) returns (user: Option<Id>)
      requires Valid() && pid in w.procs && w.procs[pid].Exchanging? && w.procs[pid].step.Issue?
      requires sid == w.procs[pid].row.session && secret !in w.secrets
      modifies this`run, this`w, this`sessions
      ensures Valid()
      ensures user.Some? <==> !fails && Issuable(old(sessions), sid, Sha256(secret), clock)
      ensures sessions == if user.Some? then Rebeared(old(sessions), sid, secret, clock) else old(sessions)
      ensures user.Some? ==> sid in old(sessions) && user.value == old(sessions)[sid].user && S.IsBearer(sessions, Sha256(secret), clock, sid)
      ensures w.procs == if user.Some? then old(w).procs[pid := old(w).procs[pid].(step := ReadUser(user.value))] else old(w).procs - {pid}
      ensures w.users == old(w).users && w.exchanges == old(w).exchanges
      ensures w.requests == old(w).requests && w.mints == old(w).mints
    {
      hide Run, Step, S.HashFree;
      IssueStep(cfg, w, pid, Env(fails, false, 0, secret, 0, 0));
      user := None;
      if !fails && sid in sessions && !sessions[sid].revoked && sessions[sid].expiresAt > clock
         && S.HashFree(sessions, Sha256(secret), Some(sid)) {
        user := Some(sessions[sid].user);
        sessions := sessions[sid := sessions[sid].(tokenHash := Sha256(secret), lastActive := clock)];
      }
      Take(Continue(pid, Env(fails, false, 0, secret, 0, 0)));
    }

    /** Revokes the session of an exchange that is being refused. */
    method RevokeIssued(pid: nat, sid: Id, revokeFails: bool)
      requires Valid() && pid in w.procs && w.procs[pid].Exchanging? && w.procs[pid].step.DropIssued?
      requires sid == w.procs[pid].row.session
      modifies this`run, this`w, this`sessions
      ensures Valid() && sessions == if revokeFails then old(sessions) else S.RevokeById(old(sessions), sid)
      ensures w.procs == old(w).procs - {pid} && w.exchanges == old(w).exchanges
      ensures w.requests == old(w).requests && w.mints == old(w).mints
    {
      hide Run, Step, S.RevokeById;
      DropStep(cfg, w, pid, Env(revokeFails, false, 0, "", 0, 0));
      if !revokeFails {
        sessions := S.RevokeById(sessions, sid);
      }
      Take(Continue(pid, Env(revokeFails, false, 0, "", 0, 0)));
    }

    /** Reads the account behind the session. */
    method ReadAccount(pid: nat, u: Id, fails: bool) returns (email: Option<string>)
      requires Valid() && pid in w.procs && w.procs[pid].Exchanging? && w.procs[pid].step == ReadUser(u)
      modifies this`run, this`w
      ensures Valid() && w.requests == old(w).requests && w.mints == old(w).mints
      ensures email.Some? <==> MayComplete(old(w), u, fails)
      ensures email.Some? ==> email.value == users[u].email && w.procs == old(w).procs - {pid}
      ensures email.Some? ==>
        var x := old(w).procs[pid];
        w.exchanges == old(w).exchanges + [Exchanged(x.code, u, users[u].email, x.row.org, x.verifier, x.origin, x.at, false)]
      ensures email.None? ==>
        w.exchanges == old(w).exchanges && w.procs == old(w).procs[pid := old(w).procs[pid].(step := DropIssued)]
    {
      hide Run, Step;
      ReadStep(cfg, w, pid, u, Env(fails, false, 0, "", 0, 0));
      Take(Continue(pid, Env(fails, false, 0, "", 0, 0)));
      if fails || u !in users || users[u].deleted || users[u].status != S.Active {
        return None;
      }
      return Some(users[u].email);
    }

    /** The second half of an exchange: a new bearer for the session, if its account is active. */
    method Complete(pid: nat, sid: Id, secret: string, issueFails: bool, readFails: bool, revokeFails: bool)
      returns (r: Option<Grant>)
      requires Valid() && pid in w.procs && w.procs[pid].Exchanging? && w.procs[pid].step.Issue?
      requires sid == w.procs[pid].row.session && secret !in w.secrets
      modifies this`run, this`w, this`sessions
      ensures Valid() && w.procs == old(w).procs - {pid} && w.requests == old(w).requests && w.mints == old(w).mints
      ensures r.Some? <==> Grants(old(w), sid, secret, issueFails, readFails)
      ensures r.Some? ==>
        var x := old(w).procs[pid];
        var u := old(sessions)[sid].user;
        && r.value == Grant(secret, u, users[u].email)
        && S.IsBearer(sessions, Sha256(secret), clock, sid)
        && w.exchanges == old(w).exchanges + [Exchanged(x.code, u, users[u].email, x.row.org, x.verifier, x.origin, x.at, false)]
      ensures r.None? ==> w.exchanges == old(w).exchanges
      ensures sessions ==
        if issueFails || !Issuable(old(sessions), sid, Sha256(secret), clock) then old(sessions)
        else Borne(old(sessions), sid, secret, clock, r.Some? || revokeFails)
    {
      if Issuable(sessions, sid, Sha256(secret), clock) {
        KeptOrRevoked(sessions, sid, secret, clock);
      }
      hide Run, Issuable, S.RevokeById, Rebeared, Borne;
      var user := IssueToken(pid, sid, secret, issueFails);
      if user.None? {
        return None;
      }
      var email := ReadAccount(pid, user.value, readFails);
      if email.None? {
        RevokeIssued(pid, sid, revokeFails);
        return None;
      }
      return Some(Grant(secret, user.value, email.value));
    }

    /** Redeems a code once. It succeeds exactly when the attempt is well formed, the code live, origin
        and verifier right, the session live and its account active; a well-formed attempt on a live code
        consumes it whatever the outcome, any other leaves every row alone. */
    method Exchange(pid: nat, code: string, origin: Option<string>, verifier: string, secret: string,
                    issueFails: bool, readFails: bool, revokeFails: bool)
      returns (r: Option<Grant>)
      requires Valid() && pid !in w.procs && secret !in w.secrets
      modifies this`run, this`w, this`sessions, codes
      ensures Valid() && w.procs == old(w).procs && w.requests == old(w).requests && w.mints == old(w).mints
      ensures codes.rows ==
        if ReachesRow(old(w), code, verifier) then MarkCode(old(codes.rows), Sha256(code)) else old(codes.rows)
      ensures r.Some? <==> Redeems(cfg, old(w), code, origin, verifier, secret, issueFails, readFails)
      ensures r.Some? ==>
        var row := old(codes.rows)[Sha256(code)];
        && S.IsBearer(sessions, Sha256(secret), clock, row.session)
        && r.value.token == secret && r.value.user == old(sessions)[row.session].user
        && w.exchanges == old(w).exchanges
                          + [Exchanged(Sha256(code), r.value.user, r.value.email, row.org, verifier, row.origin, clock, false)]
      ensures r.None? ==> w.exchanges == old(w).exchanges
      // on the rows and answers alone
      ensures r.Some? <==>
        && Presents(old(codes.rows), code, verifier, clock) && Fits(cfg, old(codes.rows)[Sha256(code)], origin, verifier)
        && CanBear(old(sessions), old(codes.rows)[Sha256(code)].session, secret, clock) && !issueFails
        && IsActive(users, old(sessions)[old(codes.rows)[Sha256(code)].session].user) && !readFails
      ensures codes.rows ==
        if Presents(old(codes.rows), code, verifier, clock)
        then old(codes.rows)[Sha256(code) := old(codes.rows)[Sha256(code)].(consumed := true)] else old(codes.rows)
      ensures sessions == BearerAfter(cfg, old(codes.rows), old(sessions), code, origin, verifier, secret, clock, issueFails, r.Some? || revokeFails)
      ensures r.Some? ==> r.value.email == users[r.value.user].email
    {
      ExchangeSpelledOut(cfg, w, code, origin, verifier, secret, issueFails, readFails);
      hide Run, Issuable, Proves, IsCodeVerifier, CodeShape, Presents, Fits, CanBear, Borne;
      var row := TakeCode(pid, code, origin, verifier);
      if row.None? {
        return None;
      }
      r := Complete(pid, row.value.session, secret, issueFails, readFails, revokeFails);
    }

    // ----- verify -----

    ghost predicate At(pid: nat, stage: VerifyStage)
      reads this
    {
      pid in w.procs && w.procs[pid].Verifying? && w.procs[pid].stage == stage
    }

    /** Consumes the token, if the request's tenant (when given) is known and the token's own. */
    method ConsumeToken(pid: nat, token: string, tenant: Tenant) returns (row: Option<Token>)
      requires Valid() && pid !in w.procs
      modifies this`run, this`w, tokens
      ensures Valid() && Recorded(old(w), w) && w.userIds == old(w).userIds
      ensures row.Some? <==>
        TokenShape(Trim(token)) && !tenant.UnknownTenant?
        && TokenMatches(old(tokens.rows), Sha256(Trim(token)), TenantFilter(tenant), clock)
      ensures row.Some? ==> row.value == old(tokens.rows)[Sha256(Trim(token))]
      ensures row.Some? <==> Redeemable(old(tokens.rows), token, tenant, clock)
      ensures tokens.rows == if row.Some? then MarkToken(old(tokens.rows), Sha256(Trim(token))) else old(tokens.rows)
      ensures w.procs ==
        if row.Some? then old(w).procs[pid := Verifying(Sha256(Trim(token)), row.value, Resolve)] else old(w).procs
    {
      RedeemableSpelledOut(tokens.rows, token, tenant, clock);
      hide Run, Step, Trim, Redeemable;
      var t := Trim(token);
      row := None;
      ConsumeStep(cfg, w, pid, token, tenant);
      if t != "" && |t| <= MAGIC_LINK_TOKEN_MAX_LEN && !tenant.UnknownTenant? {
        row := tokens.Consume(Sha256(t), TenantFilter(tenant), clock);
      }
      Take(BeginVerify(pid, token, tenant));
    }

    /** `GetByEmailFold` */
    method GetByEmailFold(email: string) returns (u: Option<Id>)
      ensures u.Some? ==> u.value in users && Oldest(users, email, u.value) && FirstOf(users, email, u.value)
      ensures u.None? ==> NoMatch(users, email) && Nobody(users, email)
    {
      if u' :| u' in users && Oldest(users, email, u') {
        u := Some(u');
      } else {
        u := None;
        OldestExists(users, email);
      }
    }

    /** Resolves the token's organization again. */
    method ResolveOrg(pid: nat, resolved: bool)
      requires Valid() && At(pid, Resolve)
      modifies this`run, this`w
      ensures Valid() && Recorded(old(w), w) && w.userIds == old(w).userIds
      ensures w.procs == if resolved then old(w).procs[pid := old(w).procs[pid].(stage := Find)] else old(w).procs - {pid}
    {
      hide Run, Step;
      StageStep(cfg, w, pid, Env(!resolved, true, 0, "", 0, 0));
      Take(Continue(pid, Env(!resolved, true, 0, "", 0, 0)));
    }

    /** Looks the account up. Exactly one of three holds afterwards: an active account is to be guarded,
        a new one created, or the sign-in is over. */
    method FindAccount(pid: nat, email: string, fails: bool) returns (u: Option<Id>, missing: bool)
      requires Valid() && At(pid, Find) && w.procs[pid].rec.email == email
      modifies this`run, this`w
      ensures Valid() && Recorded(old(w), w) && w.userIds == old(w).userIds
      ensures u.Some? ==>
        u.value in users && Oldest(users, email, u.value) && users[u.value].status == S.Active && !missing
        && w.procs == old(w).procs[pid := old(w).procs[pid].(stage := Gate(u.value, users[u.value].verified))]
      ensures u.Some? ==> Signable(users, u.value, email) && FirstOf(users, email, u.value) && !fails
      ensures u.None? && !missing ==> fails || (Nobody(users, email) && !cfg.publicSignup) || FirstIsBarred(users, email)
      ensures missing ==>
        !fails && NoMatch(users, email) && Nobody(users, email) && cfg.publicSignup && w.procs == old(w).procs[pid := old(w).procs[pid].(stage := Insert)]
      ensures u.None? && !missing ==> w.procs == old(w).procs - {pid}
    {
      hide Run, Step, NoMatch, Matching, FirstOf, Nobody;
      var found := GetByEmailFold(email);
      var e := Env(fails, false, if found.Some? then found.value else 0, "", 0, 0);
      FindStep(cfg, w, pid, e);
      Take(Continue(pid, e));
      if fails {
        return None, false;
      }
      if found.None? {
        return None, cfg.publicSignup;
      }
      return if users[found.value].status == S.Active then found else None, false;
    }

    /** `RollbackUser`, then the second lookup. */
    method RollbackSignup(pid: nat, u: Id)
      requires Valid() && At(pid, Undo(u))
      modifies this`run, this`w, this`users, this`sessions, codes
      ensures Valid() && Recorded(old(w), w) && users == old(users) - {u}
      ensures sessions.Keys <= old(sessions).Keys
      ensures w.procs == old(w).procs[pid := old(w).procs[pid].(stage := Refind)]
    {
      hide Run, Step;
      StageStep(cfg, w, pid, Env(false, false, 0, "", 0, 0));
      users := users - {u};
      sessions := map s | s in sessions && sessions[s].user != u :: sessions[s];
      codes.Cascade(sessions);
      Take(Continue(pid, Env(false, false, 0, "", 0, 0)));
    }

    /** One plain statement of a sign-up that changes no table. */
    method Report(pid: nat, fails: bool, ghost next: VerifyStage)
      requires Valid() && pid in w.procs && w.procs[pid].Verifying?
      requires next == NextOf(w.procs[pid].stage, fails)
      requires w.procs[pid].stage.Profile? || w.procs[pid].stage.Hook?
      modifies this`run, this`w
      ensures Valid() && Recorded(old(w), w) && w.procs == old(w).procs[pid := old(w).procs[pid].(stage := next)]
    {
      hide Run, Step;
      StageStep(cfg, w, pid, Env(fails, false, 0, "", 0, 0));
      Take(Continue(pid, Env(fails, false, 0, "", 0, 0)));
    }

    method InsertUser(pid: nat, email: string, id: Id, fails: bool) returns (ok: bool)
      requires Valid() && At(pid, Insert) && w.procs[pid].rec.email == email && id !in w.userIds
      modifies this`run, this`w, this`users
      ensures Valid() && Recorded(old(w), w) && ok == (!fails && !EmailTaken(old(users), email))
      ensures users == if ok then old(users)[id := User(email, false, S.Active, false, clock)] else old(users)
      ensures w.procs == old(w).procs[pid := old(w).procs[pid].(stage := if ok then Profile(id) else Refind)]
    {
      hide Run, Step;
      InsertStep(cfg, w, pid, Env(fails, false, id, "", 0, 0));
      ok := !fails && !exists u :: u in users && users[u].email == email;
      if ok {
        users := users[id := User(email, false, S.Active, false, clock)];
      }
      Take(Continue(pid, Env(fails, false, id, "", 0, 0)));
    }

    /** `MarkEmailVerified`, whose error is ignored here. */
    method ConfirmEmail(pid: nat, u: Id, fails: bool)
      requires Valid() && At(pid, Confirm(u))
      modifies this`run, this`w, this`users
      ensures Valid() && Recorded(old(w), w)
      ensures users == if u in old(users) && !fails then old(users)[u := old(users)[u].(verified := true)] else old(users)
      ensures w.procs == old(w).procs[pid := old(w).procs[pid].(stage := Hook(u))]
    {
      hide Run, Step;
      StageStep(cfg, w, pid, Env(fails, false, 0, "", 0, 0));
      if u in users && !fails {
        users := users[u := users[u].(verified := true)];
      }
      Take(Continue(pid, Env(fails, false, 0, "", 0, 0)));
    }

    /** After the row is inserted: profile, confirmation and hook, undoing the row when one fails. */
    method FinishSignup(pid: nat, id: Id, profileFails: bool, confirmFails: bool, hookFails: bool) returns (ok: bool)
      requires Valid() && At(pid, Profile(id)) && id in users && !users[id].verified
      modifies this`run, this`w, this`users, this`sessions, codes
      ensures Valid() && Recorded(old(w), w) && ok == (!profileFails && !hookFails)
      ensures sessions.Keys <= old(sessions).Keys
      ensures users == if ok then old(users)[id := old(users)[id].(verified := !confirmFails)] else old(users) - {id}
      ensures ok ==> sessions == old(sessions) && codes.rows == old(codes.rows)
      ensures w.procs == old(w).procs[pid := old(w).procs[pid].(stage := if ok then Fetch(id) else Refind)]
    {
      hide Run, Step;
      ok := false;
      Report(pid, profileFails, if profileFails then Undo(id) else Confirm(id));
      if profileFails {
        RollbackSignup(pid, id);
        return;
      }
      ConfirmEmail(pid, id, confirmFails);
      ok := RunSignupHook(pid, id, hookFails);
    }

    /** The signup hook; its failure undoes the account. */
    method RunSignupHook(pid: nat, id: Id, fails: bool) returns (ok: bool)
      requires Valid() && At(pid, Hook(id))
      modifies this`run, this`w, this`users, this`sessions, codes
      ensures Valid() && Recorded(old(w), w) && ok == !fails
      ensures sessions.Keys <= old(sessions).Keys
      ensures users == if ok then old(users) else old(users) - {id}
      ensures ok ==> sessions == old(sessions) && codes.rows == old(codes.rows)
      ensures w.procs == old(w).procs[pid := old(w).procs[pid].(stage := if ok then Fetch(id) else Refind)]
    {
      hide Run, Step;
      Report(pid, fails, if fails then Undo(id) else Fetch(id));
      if fails {
        RollbackSignup(pid, id);
      }
      ok := !fails;
    }

    /** `CreatePasswordlessAccount`: the complete account, or the users table exactly as it was. */
    method CreatePasswordlessAccount(pid: nat, email: string, id: Id, insertFails: bool, profileFails: bool,
                                     confirmFails: bool, hookFails: bool) returns (ok: bool)
      requires Valid() && At(pid, Insert) && w.procs[pid].rec.email == email && id !in w.userIds && id !in users
      modifies this`run, this`w, this`users, this`sessions, codes
      ensures Valid() && Recorded(old(w), w)
      ensures sessions.Keys <= old(sessions).Keys
      ensures ok == (!insertFails && !EmailTaken(old(users), email) && !profileFails && !hookFails)
      ensures users == if ok then old(users)[id := User(email, !confirmFails, S.Active, false, clock)] else old(users)
      ensures ok ==> sessions == old(sessions) && codes.rows == old(codes.rows)
      ensures w.procs == old(w).procs[pid := old(w).procs[pid].(stage := if ok then Fetch(id) else Refind)]
    {
      hide Run, Step, EmailTaken;
      ok := InsertUser(pid, email, id, insertFails);
      if ok {
        ok := FinishSignup(pid, id, profileFails, confirmFails, hookFails);
        assert old(users)[id := User(email, false, S.Active, false, clock)] - {id} == old(users);
      }
    }

    /** After a sign-up that did not come about, the account may exist after all. */
    method RefindAccount(pid: nat, email: string, fails: bool) returns (u: Option<Id>)
      requires Valid() && At(pid, Refind) && w.procs[pid].rec.email == email
      modifies this`run, this`w
      ensures Valid() && Recorded(old(w), w)
      ensures u.Some? ==>
        u.value in users && Oldest(users, email, u.value) && users[u.value].status == S.Active
        && w.procs == old(w).procs[pid := old(w).procs[pid].(stage := Gate(u.value, users[u.value].verified))]
      ensures u.None? ==> w.procs == old(w).procs - {pid}
      ensures NoMatch(users, email) ==> u.None?
      ensures u.None? ==> fails || Nobody(users, email) || FirstIsBarred(users, email)
    {
      hide Run, Step, NoMatch, FirstOf, Nobody;
      u := GetByEmailFold(email);
      if u.None? {
        NoneIsOldest(users, email, 0);
      }
      StageStep(cfg, w, pid, Env(fails, false, if u.Some? then u.value else 0, "", 0, 0));
      Take(Continue(pid, Env(fails, false, if u.Some? then u.value else 0, "", 0, 0)));
      if u.Some? {
        OldestIsAMatch(users, email, u.value);
        if fails || users[u.value].status != S.Active {
          u := None;
        }
      }
    }

    /** Reads the created account back; then a destination must exist. */
    method FetchAccount(pid: nat, u: Id, redirect: Option<Url>, fails: bool) returns (ok: bool)
      requires Valid() && At(pid, Fetch(u)) && w.procs[pid].rec.redirect == redirect
      modifies this`run, this`w
      ensures Valid() && Recorded(old(w), w) && ok == (MayComplete(old(w), u, fails) && Destination(cfg, redirect).Some?)
      ensures w.procs == if ok then old(w).procs[pid := old(w).procs[pid].(stage := Open(u))] else old(w).procs - {pid}
    {
      hide Run, Step, Destination;
      FetchStep(cfg, w, pid, u, Env(fails, false, 0, "", 0, 0));
      ok := !fails && u in users && !users[u].deleted && users[u].status == S.Active && Destination(cfg, redirect).Some?;
      Take(Continue(pid, Env(fails, false, 0, "", 0, 0)));
    }

    /** The guards on an existing account: it must be allowed to use links at all. */
    method CheckGuards(pid: nat, u: Id, verified: bool, redirect: Option<Url>, fails: bool, mayUse: bool) returns (ok: bool)
      requires Valid() && At(pid, Gate(u, verified)) && w.procs[pid].rec.redirect == redirect
      modifies this`run, this`w
      ensures Valid() && Recorded(old(w), w) && ok == (!fails && mayUse && (verified ==> Destination(cfg, redirect).Some?))
      ensures w.procs ==
        if ok then old(w).procs[pid := old(w).procs[pid].(stage := if verified then Open(u) else RevokeOld(u))]
        else old(w).procs - {pid}
    {
      hide Run, Step, Destination;
      GateStep(cfg, w, pid, u, verified, Env(fails, mayUse, 0, "", 0, 0));
      ok := !fails && mayUse && (verified ==> Destination(cfg, redirect).Some?);
      Take(Continue(pid, Env(fails, mayUse, 0, "", 0, 0)));
    }

    /** The last step of a take-over: the address counts as verified. */
    method ConfirmTakeOver(pid: nat, u: Id, redirect: Option<Url>, fails: bool) returns (ok: bool)
      requires Valid() && At(pid, MarkVerified(u)) && w.procs[pid].rec.redirect == redirect
      modifies this`run, this`w, this`users
      ensures Valid() && Recorded(old(w), w) && ok == (!fails && Destination(cfg, redirect).Some?)
      ensures users == if !fails && u in old(users) then old(users)[u := old(users)[u].(verified := true)] else old(users)
      ensures w.procs == if ok then old(w).procs[pid := old(w).procs[pid].(stage := Open(u))] else old(w).procs - {pid}
    {
      hide Run, Step, Destination;
      MarkStep(cfg, w, pid, u, Env(fails, false, 0, "", 0, 0));
      if !fails && u in users {
        users := users[u := users[u].(verified := true)];
      }
      Take(Continue(pid, Env(fails, false, 0, "", 0, 0)));
      ok := !fails && Destination(cfg, redirect).Some?;
    }

    /** The parts of `TakeOver` that touch sessions and the account: every session of the user is revoked
        first, and the address counts as verified only at the very end. */
    method TakeOver(pid: nat, u: Id, redirect: Option<Url>, revokeFails: bool, laterFails: bool) returns (ok: bool)
      requires Valid() && At(pid, RevokeOld(u)) && w.procs[pid].rec.redirect == redirect
      modifies this`run, this`w, this`users, this`sessions
      ensures Valid() && Recorded(old(w), w)
      ensures ok == (!revokeFails && !laterFails && Destination(cfg, redirect).Some?)
      ensures sessions == (if revokeFails then old(sessions) else S.RevokeForUser(old(sessions), u, None)) && sessions.Keys == old(sessions).Keys
      ensures users ==
        if !revokeFails && !laterFails && u in old(users) then old(users)[u := old(users)[u].(verified := true)] else old(users)
      ensures w.procs == if ok then old(w).procs[pid := old(w).procs[pid].(stage := Open(u))] else old(w).procs - {pid}
    {
      assert S.RevokeForUser(sessions, u, None).Keys == sessions.Keys;
      hide Run, Step, Destination, S.RevokeForUser;
      ok := RevokeAll(pid, u, revokeFails);
      if ok {
        ok := ConfirmTakeOver(pid, u, redirect, laterFails);
      }
    }

    method RevokeAll(pid: nat, u: Id, fails: bool) returns (ok: bool)
      requires Valid() && At(pid, RevokeOld(u))
      modifies this`run, this`w, this`sessions
      ensures Valid() && Recorded(old(w), w) && ok == !fails
      ensures sessions == if fails then old(sessions) else S.RevokeForUser(old(sessions), u, None)
      ensures w.procs == if ok then old(w).procs[pid := old(w).procs[pid].(stage := MarkVerified(u))] else old(w).procs - {pid}
    {
      hide Run, Step, S.RevokeForUser;
      StageStep(cfg, w, pid, Env(fails, false, 0, "", 0, 0));
      if !fails {
        sessions := S.RevokeForUser(sessions, u, None);
      }
      Take(Continue(pid, Env(fails, false, 0, "", 0, 0)));
      ok := !fails;
    }

    /** An existing account: guarded, and taken over when the link is its first proof of the address. */
    method AdmitExisting(pid: nat, u: Id, email: string, redirect: Option<Url>, a: Answers) returns (ok: bool)
      requires Valid() && u in users && Signable(users, u, email) && At(pid, Gate(u, users[u].verified)) && w.procs[pid].rec.redirect == redirect
      modifies this`run, this`w, this`users, this`sessions
      ensures Valid() && Recorded(old(w), w)
      ensures sessions.Keys <= old(sessions).Keys
      ensures ok ==> Signable(users, u, email)
      ensures ok ==> a.mayUse && users == old(users)[u := old(users)[u].(verified := true)] && Destination(cfg, redirect).Some?
      ensures ok && !old(users)[u].verified ==> sessions == S.RevokeForUser(old(sessions), u, None)
      ensures ok && old(users)[u].verified ==> sessions == old(sessions)
      ensures ok <==> Admits(cfg, old(users)[u], redirect, a)
      ensures !ok ==> users.Keys == old(users).Keys && forall v :: v in users && v != u ==> users[v] == old(users)[v]
      ensures w.procs == Turn(old(w).procs, pid, ok, Open(u))
    {
      DestinationGoes(cfg, redirect);
      hide Run, Step, Destination, S.RevokeForUser, GoesSomewhere;
      var verified := users[u].verified;
      ok := CheckGuards(pid, u, verified, redirect, a.guardFails, a.mayUse);
      if ok && !verified {
        ok := TakeOver(pid, u, redirect, a.revokeFails, a.laterFails);
      } else if verified {
        assert old(users)[u := old(users)[u].(verified := true)] == old(users);
      }
    }

    /** A new account, when nobody has the address and sign-up is open. */
    method AdmitNew(pid: nat, email: string, redirect: Option<Url>, a: Answers) returns (ok: bool)
      requires Valid() && At(pid, Insert) && w.procs[pid].rec.email == email && w.procs[pid].rec.redirect == redirect
      requires NoMatch(users, email) && a.newId !in w.userIds && a.newId !in users
      modifies this`run, this`w, this`users, this`sessions, codes
      ensures Valid() && Recorded(old(w), w)
      ensures sessions.Keys <= old(sessions).Keys
      ensures ok ==> users == old(users)[a.newId := User(email, !a.confirmFails, S.Active, false, clock)]
      ensures ok ==> Signable(users, a.newId, email)
      ensures ok <==> Creates(cfg, old(users), email, redirect, a)
      ensures ok ==> sessions == old(sessions) && codes.rows == old(codes.rows) && Destination(cfg, redirect).Some?
      ensures !ok ==> users == old(users) || a.newId in users
      ensures w.procs == Turn(old(w).procs, pid, ok, Open(a.newId))
    {
      DestinationGoes(cfg, redirect);
      hide Run, Step, Destination, NoMatch, GoesSomewhere;
      ok := CreatePasswordlessAccount(pid, email, a.newId, a.insertFails, a.profileFails, a.confirmFails, a.hookFails);
      if ok {
        ok := FetchAccount(pid, a.newId, redirect, a.fetchFails);
      } else {
        var none := RefindAccount(pid, email, a.refindFails);
      }
    }

    /** Redeems a token once: the account it settles on has the address the link was sent to, is active,
        and nothing anyone planted in it before its first proof of that address survives. */
    method Verify(pid: nat, token: string, tenant: Tenant, a: Answers) returns (u: Option<Id>, row: Option<Token>)
      requires Valid() && pid !in w.procs && a.newId !in w.userIds && a.newId !in users
      modifies this`run, this`w, this`users, this`sessions, tokens, codes
      ensures Valid() && Recorded(old(w), w)
      ensures sessions.Keys <= old(sessions).Keys
      ensures row.Some? <==>
        TokenShape(Trim(token)) && !tenant.UnknownTenant?
        && TokenMatches(old(tokens.rows), Sha256(Trim(token)), TenantFilter(tenant), clock)
      ensures row.Some? <==> Redeemable(old(tokens.rows), token, tenant, clock)
      ensures tokens.rows == if row.Some? then MarkToken(old(tokens.rows), Sha256(Trim(token))) else old(tokens.rows)
      ensures u.Some? ==>
        && row.Some? && row.value == old(tokens.rows)[Sha256(Trim(token))]
        && Signable(users, u.value, row.value.email) && Destination(cfg, row.value.redirect).Some?
        && w.procs == old(w).procs[pid := Verifying(Sha256(Trim(token)), row.value, Open(u.value))]
      ensures u.Some? && u.value in old(users) ==>
        && a.mayUse && users[u.value].verified
        && (!old(users)[u.value].verified ==> sessions == S.RevokeForUser(old(sessions), u.value, None))
      ensures u.Some? && u.value !in old(users) ==> cfg.publicSignup && NoMatch(old(users), row.value.email)
      ensures u.None? ==> w.procs == old(w).procs
      // when it succeeds: exactly on these users, rows and answers
      ensures row.Some? ==> row.value == old(tokens.rows)[Sha256(Trim(token))]
      ensures u.Some? ==> a.resolved && SettlesOn(cfg, old(users), row.value, a, u.value)
      ensures u.None? ==> row.None? || !a.resolved || SettlesOnNobody(cfg, old(users), row.value, a)
      ensures u.Some? ==> users == Settled(old(users), row.value.email, a, u.value, clock)
      ensures u.Some? && u.value in old(users) && old(users)[u.value].verified ==> sessions == old(sessions)
      ensures u.Some? && u.value !in old(users) ==> sessions == old(sessions)
      ensures u.Some? ==> codes.rows == old(codes.rows)
    {
      hide Run, Step, Destination, Trim, TokenMatches, TokenShape, S.RevokeForUser, Signable, NoMatch, Redeemable;
      hide SettlesOn, SettlesOnNobody, Settled;
      u := None;
      row := ConsumeToken(pid, token, tenant);
      if row.None? {
        return;
      }
      u := VerifyRow(pid, row.value, a);
    }

    /** What follows once the token is consumed. */
    method VerifyRow(pid: nat, row: Token, a: Answers) returns (u: Option<Id>)
      requires Valid() && At(pid, Resolve) && w.procs[pid].rec == row && a.newId !in w.userIds && a.newId !in users
      modifies this`run, this`w, this`users, this`sessions, codes
      ensures Valid() && Recorded(old(w), w)
      ensures sessions.Keys <= old(sessions).Keys
      ensures u.Some? ==> Signable(users, u.value, row.email) && Destination(cfg, row.redirect).Some?
      ensures u.Some? && u.value in old(users) ==>
        && a.mayUse && users[u.value].verified
        && (!old(users)[u.value].verified ==> sessions == S.RevokeForUser(old(sessions), u.value, None))
      ensures u.Some? && u.value !in old(users) ==> cfg.publicSignup && NoMatch(old(users), row.email)
      ensures u.Some? ==> a.resolved && SettlesOn(cfg, old(users), row, a, u.value)
      ensures u.None? ==> !a.resolved || SettlesOnNobody(cfg, old(users), row, a)
      ensures u.Some? ==> users == Settled(old(users), row.email, a, u.value, clock)
      ensures u.Some? && u.value in old(users) && old(users)[u.value].verified ==> sessions == old(sessions)
      ensures u.Some? && u.value !in old(users) ==> sessions == old(sessions)
      ensures u.Some? ==> codes.rows == old(codes.rows)
      ensures w.procs == if u.Some? then old(w).procs[pid := old(w).procs[pid].(stage := Open(u.value))] else old(w).procs - {pid}
    {
      hide Run, Step, Destination, Signable, NoMatch, S.RevokeForUser, SettlesOn, SettlesOnNobody, Settled;
      u := None;
      ResolveOrg(pid, a.resolved);
      if a.resolved {
        u := SettleAccount(pid, row, a);
      }
    }

    /** `FindOrCreate` and what follows it. */
    method SettleAccount(pid: nat, row: Token, a: Answers) returns (u: Option<Id>)
      requires Valid() && At(pid, Find) && w.procs[pid].rec == row && a.newId !in w.userIds && a.newId !in users
      modifies this`run, this`w, this`users, this`sessions, codes
      ensures Valid() && Recorded(old(w), w)
      ensures sessions.Keys <= old(sessions).Keys
      ensures u.Some? ==> Signable(users, u.value, row.email) && Destination(cfg, row.redirect).Some?
      ensures u.Some? && u.value in old(users) ==>
        && a.mayUse && users[u.value].verified
        && (!old(users)[u.value].verified ==> sessions == S.RevokeForUser(old(sessions), u.value, None))
      ensures u.Some? && u.value !in old(users) ==> cfg.publicSignup && NoMatch(old(users), row.email)
      ensures u.Some? ==> SettlesOn(cfg, old(users), row, a, u.value)
      ensures u.None? ==> SettlesOnNobody(cfg, old(users), row, a)
      ensures u.Some? ==> users == Settled(old(users), row.email, a, u.value, clock)
      ensures u.Some? && u.value in old(users) && old(users)[u.value].verified ==> sessions == old(sessions)
      ensures u.Some? && u.value !in old(users) ==> sessions == old(sessions)
      ensures u.Some? ==> codes.rows == old(codes.rows)
      ensures w.procs == if u.Some? then old(w).procs[pid := old(w).procs[pid].(stage := Open(u.value))] else old(w).procs - {pid}
    {
      hide Run, Step, Destination, S.RevokeForUser, Signable, NoMatch, Oldest, FirstOf, Nobody, GoesSomewhere;
      ghost var before := users;
      SettlingSpelledOut(cfg, before, row, a);
      hide SettlesOn, SettlesOnNobody, FirstIsBarred, Admits, Creates;
      var found, missing := FindAccount(pid, row.email, a.findFails);
      if found.Some? {
        var ok := AdmitExisting(pid, found.value, row.email, row.redirect, a);
        u := if ok then found else None;
      } else if missing {
        var ok := AdmitNew(pid, row.email, row.redirect, a);
        u := if ok then Some(a.newId) else None;
      } else {
        u := None;
      }
    }

    // ----- the handler after verify -----

    method OpenSession(pid: nat, u: Id, sid: Id, secret: string, expiresAt: int, staff: bool, fails: bool) returns (ok: bool)
      requires Valid() && At(pid, Open(u)) && sid !in w.sessionIds && secret !in w.secrets
      modifies this`run, this`w, this`sessions
      ensures Valid() && w.requests == old(w).requests && w.mints == old(w).mints && w.exchanges == old(w).exchanges
      ensures ok == (!fails && u in users && S.HashFree(old(sessions), Sha256(secret), None))
      ensures sessions == if ok then old(sessions)[sid := S.Session(u, Sha256(secret), clock, expiresAt, clock, false, false, staff)] else old(sessions)
      ensures w.secrets <= old(w).secrets + {secret}
      ensures w.procs == Turn(old(w).procs, pid, ok, AskMfa(u, sid))
    {
      hide Run, Step, S.HashFree;
      OpenStep(cfg, w, pid, u, Env(fails, staff, sid, secret, clock, expiresAt));
      ok := !fails && u in users && S.HashFree(sessions, Sha256(secret), None);
      if ok {
        sessions := sessions[sid := S.Session(u, Sha256(secret), clock, expiresAt, clock, false, false, staff)];
      }
      Take(Continue(pid, Env(fails, staff, sid, secret, clock, expiresAt)));
    }

    /** Flags the session when the user is found to have MFA; otherwise, and when the lookup fails, runs the
        login hook. A failed flag ends the sign-in with the session undisclosed; a failed hook revokes it. */
    method ArmSession(pid: nat, u: Id, sid: Id, mfaFails: bool, hasMfa: bool, flagFails: bool, hookFails: bool, revokeFails: bool) returns (ok: bool)
      requires Valid() && At(pid, AskMfa(u, sid))
      modifies this`run, this`w, this`sessions
      ensures Valid() && Recorded(old(w), w) && ok == (if hasMfa && !mfaFails then !flagFails else !hookFails)
      ensures sessions ==
        if hasMfa && !mfaFails then (if flagFails then old(sessions) else S.SetMfaPending(old(sessions), sid, true))
        else (if hookFails && !revokeFails then S.RevokeById(old(sessions), sid) else old(sessions))
      ensures w.procs == Turn(old(w).procs, pid, ok, Mint(u, sid))
    {
      hide Run, Step, S.SetMfaPending, S.RevokeById;
      MfaStep(cfg, w, pid, u, sid, Env(mfaFails, hasMfa, 0, "", 0, 0));
      Take(Continue(pid, Env(mfaFails, hasMfa, 0, "", 0, 0)));
      if hasMfa && !mfaFails {
        ok := FlagSession(pid, u, sid, flagFails);
      } else {
        ok := RunLoginHook(pid, u, sid, hookFails, revokeFails);
      }
    }

    method FlagSession(pid: nat, u: Id, sid: Id, fails: bool) returns (ok: bool)
      requires Valid() && At(pid, FlagMfa(u, sid))
      modifies this`run, this`w, this`sessions
      ensures Valid() && Recorded(old(w), w) && ok == !fails
      ensures sessions == if fails then old(sessions) else S.SetMfaPending(old(sessions), sid, true)
      ensures w.procs == Turn(old(w).procs, pid, ok, Mint(u, sid))
    {
      hide Run, Step, S.SetMfaPending;
      FlagStep(cfg, w, pid, u, sid, Env(fails, false, 0, "", 0, 0));
      if !fails {
        sessions := S.SetMfaPending(sessions, sid, true);
      }
      Take(Continue(pid, Env(fails, false, 0, "", 0, 0)));
      ok := !fails;
    }

    method RunLoginHook(pid: nat, u: Id, sid: Id, fails: bool, revokeFails: bool) returns (ok: bool)
      requires Valid() && At(pid, LoginHook(u, sid))
      modifies this`run, this`w, this`sessions
      ensures Valid() && Recorded(old(w), w) && ok == !fails
      ensures sessions == if fails && !revokeFails then S.RevokeById(old(sessions), sid) else old(sessions)
      ensures w.procs == Turn(old(w).procs, pid, ok, Mint(u, sid))
    {
      hide Run, Step, S.RevokeById;
      HookStep(cfg, w, pid, u, sid, Env(fails, false, 0, "", 0, 0));
      Take(Continue(pid, Env(fails, false, 0, "", 0, 0)));
      if fails {
        RevokeOpened(pid, sid, revokeFails);
      }
      ok := !fails;
    }

    method RevokeOpened(pid: nat, sid: Id, fails: bool)
      requires Valid() && At(pid, DropSession(sid))
      modifies this`run, this`w, this`sessions
      ensures Valid() && Recorded(old(w), w) && w.procs == old(w).procs - {pid}
      ensures sessions == if fails then old(sessions) else S.RevokeById(old(sessions), sid)
    {
      hide Run, Step, S.RevokeById;
      DropOpenedStep(cfg, w, pid, sid, Env(fails, false, 0, "", 0, 0));
      if !fails {
        sessions := S.RevokeById(sessions, sid);
      }
      Take(Continue(pid, Env(fails, false, 0, "", 0, 0)));
    }

    /** `CreateCode` for the destination the handler chose. */
    method StoreCode(pid: nat, u: Id, sid: Id, row: Token, secret: string, fails: bool) returns (ok: bool)
      requires Valid() && At(pid, Mint(u, sid)) && w.procs[pid].rec == row && secret !in w.secrets
      modifies this`run, this`w, codes
      ensures Valid() && w.requests == old(w).requests && w.exchanges == old(w).exchanges
      ensures ok == (!fails && CanMint(cfg, row) && Sha256(secret) !in old(codes.rows) && sid in sessions)
      ensures codes.rows == if ok then old(codes.rows)[Sha256(secret) := CodeFor(cfg, sid, row, clock)] else old(codes.rows)
      ensures w.mints ==
        if ok then old(w).mints[Sha256(secret) := MintOfCode(old(w).procs[pid].token, u, CodeFor(cfg, sid, row, clock), clock)]
        else old(w).mints
      ensures w.procs == Turn(old(w).procs, pid, !ok, DropSession(sid))
    {
      hide Run, Step, IsCodeChallenge, Destination;
      MintStep(cfg, w, pid, u, sid, Env(fails, false, 0, secret, clock, 0));
      ok := false;
      var dest := Destination(cfg, row.redirect);
      var validChallenge := ValidCodeChallenge(row.challenge);
      if validChallenge && dest.Some? && dest.value.origin.Some? {
        ok := codes.Create(Sha256(secret), CodeFor(cfg, sid, row, clock), sid in sessions, fails);
      }
      Take(Continue(pid, Env(fails, false, 0, secret, clock, 0)));
    }

    /** Hands the sign-in over as a one-time code; when none can be stored, the session is revoked. */
    method Hand(pid: nat, u: Id, sid: Id, row: Token, secret: string, fails: bool, revokeFails: bool) returns (code: Option<string>)
      requires Valid() && At(pid, Mint(u, sid)) && w.procs[pid].rec == row && secret !in w.secrets
      modifies this`run, this`w, this`sessions, codes
      ensures Valid() && w.procs == old(w).procs - {pid} && w.requests == old(w).requests && w.exchanges == old(w).exchanges
      ensures code.Some? <==> !fails && CanMint(cfg, row) && Sha256(secret) !in old(codes.rows) && sid in old(sessions)
      ensures code.Some? ==>
        && code.value == secret && sessions == old(sessions)
        && codes.rows == old(codes.rows)[Sha256(secret) := CodeFor(cfg, sid, row, clock)]
        && w.mints == old(w).mints[Sha256(secret) := MintOfCode(old(w).procs[pid].token, u, CodeFor(cfg, sid, row, clock), clock)]
      ensures code.None? ==>
        && codes.rows == old(codes.rows) && w.mints == old(w).mints
        && sessions == if revokeFails then old(sessions) else S.RevokeById(old(sessions), sid)
    {
      hide Run, Step, S.RevokeById, CanMint, CodeFor;
      var ok := StoreCode(pid, u, sid, row, secret, fails);
      if ok {
        return Some(secret);
      }
      RevokeOpened(pid, sid, revokeFails);
      return None;
    }

    /** The whole verify request. A code comes out only for an account with the link's address, bound to
        a live session of that account, to the link's organization and challenge, and to the origin of
        its destination. That session is pending exactly when the lookup answered that the user has MFA: a
        lookup that fails counts as no MFA. */
    method SignIn(pid: nat, token: string, tenant: Tenant, a: Answers, h: HandlerAnswers) returns (code: Option<string>)
      requires Valid() && pid !in w.procs && a.newId !in w.userIds && a.newId !in users
      requires h.sid !in w.sessionIds && h.secret !in w.secrets && h.codeSecret !in w.secrets && h.secret != h.codeSecret
      modifies this`run, this`w, this`users, this`sessions, tokens, codes
      ensures Valid() && w.procs == old(w).procs && w.requests == old(w).requests && w.exchanges == old(w).exchanges
      ensures code.Some? ==> TokenMatches(old(tokens.rows), Sha256(Trim(token)), TenantFilter(tenant), clock)
      ensures code.Some? ==>
        var row := old(tokens.rows)[Sha256(Trim(token))];
        && tokens.rows == MarkToken(old(tokens.rows), Sha256(Trim(token)))
        && code.value == h.codeSecret && CanMint(cfg, row)
        && Sha256(h.codeSecret) in codes.rows && codes.rows[Sha256(h.codeSecret)] == CodeFor(cfg, h.sid, row, clock)
        && h.sid in sessions && !sessions[h.sid].revoked && sessions[h.sid].mfaPending == (h.hasMfa && !h.mfaFails)
        && Signable(users, sessions[h.sid].user, row.email)
      ensures code.None? ==> w.mints == old(w).mints
      // when a code comes out: exactly on these users, rows, sessions and answers
      ensures code.Some? ==>
        var row := old(tokens.rows)[Sha256(Trim(token))];
        && Redeemable(old(tokens.rows), token, tenant, clock) && a.resolved
        && SettlesOn(cfg, old(users), row, a, sessions[h.sid].user)
        && Starts(old(sessions), h) && Hands(cfg, row, old(codes.rows), h)
      ensures code.None? && Redeemable(old(tokens.rows), token, tenant, clock) && a.resolved ==>
        var row := old(tokens.rows)[Sha256(Trim(token))];
        SettlesOnNobody(cfg, old(users), row, a) || !Starts(old(sessions), h) || !Hands(cfg, row, old(codes.rows), h)
      ensures code.Some? ==>
        && IsCodeOf(cfg, h.sid, old(tokens.rows)[Sha256(Trim(token))], clock, codes.rows[Sha256(h.codeSecret)])
        && sessions[h.sid] == NewSession(sessions[h.sid].user, h, clock)
      // and no session that was opened stays usable without one
      ensures code.None? && h.sid in sessions && h.sid !in old(sessions) && !h.revokeFails && !(h.hasMfa && !h.mfaFails && h.flagFails) ==>
        sessions[h.sid].revoked
    {
      hide Run, Step, Trim, TokenMatches, TokenShape, Destination, CanMint, CodeFor, S.RevokeForUser, S.HashFree, NoMatch, MarkToken;
      hide SettlesOn, SettlesOnNobody, Settled, Redeemable, IsCodeOf, Hands, Starts;
      code := None;
      var u, row := Verify(pid, token, tenant, a);
      if u.None? {
        return;
      }
      StartsAfterRevocation(old(sessions), u.value, h);
      StartedSession(old(sessions), u.value, h, clock);
      code := FinishSignIn(pid, u.value, row.value, h);
    }

    /** The login session, with its MFA flag and the login hook. */
    method StartSession(pid: nat, u: Id, h: HandlerAnswers) returns (ok: bool)
      requires Valid() && At(pid, Open(u)) && h.sid !in w.sessionIds && h.secret !in w.secrets
      modifies this`run, this`w, this`sessions
      ensures Valid() && w.requests == old(w).requests && w.exchanges == old(w).exchanges && w.mints == old(w).mints
      ensures w.procs == Turn(old(w).procs, pid, ok, Mint(u, h.sid)) && w.secrets <= old(w).secrets + {h.secret}
      ensures ok <==> u in users && Starts(old(sessions), h)
      ensures sessions == if u in users && Opens(old(sessions), h) then old(sessions)[h.sid := NewSession(u, h, clock)] else old(sessions)
    {
      hide Run, Step;
      ok := OpenSession(pid, u, h.sid, h.secret, h.expiresAt, h.staff, h.openFails);
      if ok {
        ok := ArmSession(pid, u, h.sid, h.mfaFails, h.hasMfa, h.flagFails, h.hookFails, h.revokeFails);
      }
    }

    method FinishSignIn(pid: nat, u: Id, row: Token, h: HandlerAnswers) returns (code: Option<string>)
      requires Valid() && At(pid, Open(u)) && w.procs[pid].rec == row && u in users
      requires h.sid !in w.sessionIds && h.secret !in w.secrets && h.codeSecret !in w.secrets && h.secret != h.codeSecret
      modifies this`run, this`w, this`sessions, codes
      ensures Valid() && w.procs == old(w).procs - {pid} && w.requests == old(w).requests && w.exchanges == old(w).exchanges
      ensures Ends(cfg, row, u, h, clock, old(sessions), old(codes.rows), sessions, codes.rows, code)
      ensures code.None? ==> w.mints == old(w).mints
    {
      hide Run, Step, CanMint, CodeFor, MintOfCode, Ends, Starts, Opens, NewSession, S.RevokeById;
      code := None;
      var ok := StartSession(pid, u, h);
      ghost var started := sessions;
      if ok {
        code := Hand(pid, u, h.sid, row, h.codeSecret, h.codeFails, h.revokeFails);
      }
      EndOfSignIn(cfg, row, u, h, clock, old(sessions), old(codes.rows), ok, started, sessions, codes.rows, code);
    }

    /** Time passes. */
    method Advance(elapsed: nat)
      requires Valid()
      modifies this`run, this`w, this`clock
      ensures Valid() && clock == old(clock) + elapsed && w == old(w).(now := clock)
    {
      hide Run;
      clock := clock + elapsed;
      Take(Tick(elapsed));
    }
  }

  /** The answers of the stores and hooks during one verify, and the id a new account would get. */
  datatype Answers = Answers(resolved: bool, findFails: bool, newId: Id, insertFails: bool, profileFails: bool,
                             confirmFails: bool, hookFails: bool, refindFails: bool, fetchFails: bool,
                             guardFails: bool, mayUse: bool, revokeFails: bool, laterFails: bool)

  /** What the handler gets to hear after verify, and the ids and secrets it draws. */
  datatype HandlerAnswers = HandlerAnswers(sid: Id, secret: string, codeSecret: string, expiresAt: int, staff: bool,
                                           openFails: bool, mfaFails: bool, hasMfa: bool, flagFails: bool, hookFails: bool,
                                           revokeFails: bool, codeFails: bool)

  /** The account a verify settles on: active, and the address of the token up to case. */
  ghost predicate Signable(users: map<Id, User>, u: Id, email: string) {
    u in users && users[u].status == S.Active && Matching(users, email, u)
  }

  // ----- what the calls come down to, on tables, requests and answers -----

  /** Code and verifier are well formed (section 4.1 of RFC 7636) and the code is live and unconsumed. */
  ghost predicate Presents(codes: Codes, code: string, verifier: string, now: int) {
    && 0 < |code| <= 128 && 43 <= |verifier| <= 128
    && (forall i :: 0 <= i < |verifier| ==> verifier[i] in URL_SAFE_LETTERS || verifier[i] in ".~")
    && Sha256(code) in codes && !codes[Sha256(code)].consumed && now < codes[Sha256(code)].expiresAt
  }

  /** The attempt comes from the origin the code is for, with the verifier of its challenge. */
  ghost predicate Fits(cfg: Config, row: Code, origin: Option<string>, verifier: string) {
    origin == Some(row.origin) && PkceChallenge(cfg.sha, verifier) == row.challenge
  }

  /** The session is live, and nobody else has the secret. */
  ghost predicate CanBear(sessions: S.Table, sid: Id, secret: string, now: int) {
    && sid in sessions && !sessions[sid].revoked && now < sessions[sid].expiresAt
    && forall s :: s in sessions && s != sid ==> sessions[s].tokenHash != Sha256(secret)
  }

  ghost predicate IsActive(users: map<Id, User>, u: Id) {
    u in users && !users[u].deleted && users[u].status == S.Active
  }

  function Rebeared(sessions: S.Table, sid: Id, secret: string, now: int): S.Table {
    if sid in sessions then sessions[sid := sessions[sid].(tokenHash := Sha256(secret), lastActive := now)] else sessions
  }

  /** The sessions after an exchange: the code's session has the new bearer, and is revoked if the account
      turns out not to be usable and that can be written. */
  ghost function BearerAfter(cfg: Config, codes: Codes, sessions: S.Table, code: string, origin: Option<string>, verifier: string,
                             secret: string, now: int, issueFails: bool, keep: bool): S.Table
  {
    var c := Sha256(code);
    if !Presents(codes, code, verifier, now) || !Fits(cfg, codes[c], origin, verifier)
       || issueFails || !CanBear(sessions, codes[c].session, secret, now) then sessions
    else
      var sid := codes[c].session;
      Borne(sessions, sid, secret, now, keep)
  }

  ghost function Borne(sessions: S.Table, sid: Id, secret: string, now: int, keep: bool): S.Table
    requires sid in sessions
  {
    sessions[sid := sessions[sid].(tokenHash := Sha256(secret), lastActive := now, revoked := !keep)]
  }

  lemma KeptOrRevoked(sessions: S.Table, sid: Id, secret: string, now: int)
    requires sid in sessions && !sessions[sid].revoked
    ensures Borne(sessions, sid, secret, now, true) == Rebeared(sessions, sid, secret, now)
    ensures Borne(sessions, sid, secret, now, false) == S.RevokeById(Rebeared(sessions, sid, secret, now), sid)
  {
  }

  lemma ExchangeSpelledOut(cfg: Config, w: World, code: string, origin: Option<string>, verifier: string, secret: string,
                           issueFails: bool, readFails: bool)
    ensures ReachesRow(w, code, verifier) <==> Presents(w.codes, code, verifier, w.now)
    ensures forall row :: Proves(cfg, row, origin, verifier) <==> Fits(cfg, row, origin, verifier)
    ensures forall sid :: Issuable(w.sessions, sid, Sha256(secret), w.now) <==> CanBear(w.sessions, sid, secret, w.now)
    ensures forall u :: MayComplete(w, u, readFails) <==> IsActive(w.users, u) && !readFails
  {
    VerifierSpelledOut(verifier);
    ChallengeEncodesDigest(cfg.sha, verifier, verifier);
    hide IsCodeVerifier, IsCodeChallenge, PkceChallenge;
  }

  /** The request gives an address of at most 254 characters, an existing tenant and an S256 challenge. */
  ghost predicate Wanted(r: LinkRequest) {
    && r.wellFormed && 0 < |Normalize(r.email)| <= 254 && r.tenant.Some?
    && |r.challenge| == 43 && forall i :: 0 <= i < 43 ==> r.challenge[i] in URL_SAFE_LETTERS
  }

  /** The stored row repeats the request. Of the redirect only an allowlisted one is kept. */
  ghost predicate Remembers(cfg: Config, r: LinkRequest, row: Token, now: int) {
    && r.tenant == Some(row.org) && row.email == Normalize(r.email) && row.challenge == r.challenge && !row.consumed
    && row.createdAt == now && row.expiresAt == now + (if cfg.ttl > 0 then cfg.ttl else 900 * 1_000_000_000)
    && row.redirect == if exists o :: Asks(cfg, r.redirect, o) then r.redirect else None
  }

  lemma RequestSpelledOut(cfg: Config, r: LinkRequest, now: int)
    ensures Acceptable(r) <==> Wanted(r)
    ensures r.tenant.Some? ==> Remembers(cfg, r, TokenFor(cfg, r, now), now)
  {
    ChallengeSpelledOut(r.challenge);
    AllowedAsks(cfg, r.redirect);
    hide Allowed, IsCodeChallenge, Normalize;
  }

  /** The token is of a possible length and its row is live, unconsumed and of the tenant, if one is named. */
  ghost predicate Redeemable(rows: Tokens, token: string, tenant: Tenant, now: int) {
    var h := Sha256(Trim(token));
    && 0 < |Trim(token)| <= 256 && h in rows && !rows[h].consumed && now < rows[h].expiresAt
    && (tenant == NoTenant || tenant == Tenant(rows[h].org))
  }

  lemma RedeemableSpelledOut(rows: Tokens, token: string, tenant: Tenant, now: int)
    ensures Redeemable(rows, token, tenant, now) <==>
      TokenShape(Trim(token)) && !tenant.UnknownTenant? && TokenMatches(rows, Sha256(Trim(token)), TenantFilter(tenant), now)
  {
    hide Trim;
  }

  /** An account that is not deleted and has the address up to case. */
  ghost predicate Has(u: User, email: string) {
    !u.deleted && Lower(u.email) == Lower(email)
  }

  ghost predicate Nobody(users: map<Id, User>, email: string) {
    forall u :: u in users ==> !Has(users[u], email)
  }

  /** Nobody else with the address was created before. */
  ghost predicate FirstOf(users: map<Id, User>, email: string, u: Id) {
    u in users && Has(users[u], email) && forall v :: v in users && Has(users[v], email) ==> users[u].createdAt <= users[v].createdAt
  }

  ghost predicate FirstIsBarred(users: map<Id, User>, email: string) {
    exists u :: FirstOf(users, email, u) && users[u].status != S.Active
  }

  /** An existing account is let in: active, allowed to use links, with somewhere to go, and taken over
      without a failure unless its address is verified already. */
  ghost predicate Admits(cfg: Config, u: User, redirect: Option<Url>, a: Answers) {
    && u.status == S.Active && !a.guardFails && a.mayUse && GoesSomewhere(cfg, redirect)
    && (u.verified || (!a.revokeFails && !a.laterFails))
  }

  /** A new account comes about: sign-up is open, no row at all has the address, and no statement fails but
      perhaps the confirmation of the address. */
  ghost predicate Creates(cfg: Config, users: map<Id, User>, email: string, redirect: Option<Url>, a: Answers) {
    && (forall u :: u in users ==> users[u].email != email)
    && !a.insertFails && !a.profileFails && !a.hookFails && !a.fetchFails && GoesSomewhere(cfg, redirect)
  }

  /** The account the link of `row` signs in. */
  ghost predicate SettlesOn(cfg: Config, users: map<Id, User>, row: Token, a: Answers, u: Id) {
    && !a.findFails
    && if Nobody(users, row.email) then u == a.newId && cfg.publicSignup && Creates(cfg, users, row.email, row.redirect, a)
       else FirstOf(users, row.email, u) && Admits(cfg, users[u], row.redirect, a)
  }

  /** Why it can sign in nobody; when several accounts were created first at the same instant, one of them
      not being let in is enough. */
  ghost predicate SettlesOnNobody(cfg: Config, users: map<Id, User>, row: Token, a: Answers) {
    || a.findFails
    || if Nobody(users, row.email) then !cfg.publicSignup || !Creates(cfg, users, row.email, row.redirect, a)
       else exists u :: FirstOf(users, row.email, u) && !Admits(cfg, users[u], row.redirect, a)
  }

  lemma SettlingSpelledOut(cfg: Config, users: map<Id, User>, row: Token, a: Answers)
    ensures a.findFails || FirstIsBarred(users, row.email) ==> SettlesOnNobody(cfg, users, row, a)
    ensures Nobody(users, row.email) ==>
      (SettlesOnNobody(cfg, users, row, a) <==> a.findFails || !cfg.publicSignup || !Creates(cfg, users, row.email, row.redirect, a))
    ensures Nobody(users, row.email) && cfg.publicSignup && !a.findFails && Creates(cfg, users, row.email, row.redirect, a) ==>
      SettlesOn(cfg, users, row, a, a.newId)
    ensures forall u :: FirstOf(users, row.email, u) && !a.findFails ==>
      if Admits(cfg, users[u], row.redirect, a) then SettlesOn(cfg, users, row, a, u) else SettlesOnNobody(cfg, users, row, a)
  {
    assert FirstIsBarred(users, row.email) ==> !Nobody(users, row.email);
  }

  /** The session row can be stored. */
  ghost predicate Opens(sessions: S.Table, h: HandlerAnswers) {
    !h.openFails && forall s :: s in sessions ==> sessions[s].tokenHash != Sha256(h.secret)
  }

  lemma StartsAfterRevocation(sessions: S.Table, u: Id, h: HandlerAnswers)
    ensures Starts(S.RevokeForUser(sessions, u, None), h) <==> Starts(sessions, h)
  {
    var t := S.RevokeForUser(sessions, u, None);
    assert t.Keys == sessions.Keys && forall s :: s in sessions ==> t[s].tokenHash == sessions[s].tokenHash;
  }

  /** The session is opened and flagged, or passes the login hook. A failed lookup counts as no MFA. */
  ghost predicate Starts(sessions: S.Table, h: HandlerAnswers) {
    Opens(sessions, h) && if h.hasMfa && !h.mfaFails then !h.flagFails else !h.hookFails
  }

  /** A code can be stored for the session: the challenge is one, and there is an origin to send it to. */
  ghost predicate Hands(cfg: Config, row: Token, codes: Codes, h: HandlerAnswers) {
    && !h.codeFails && Sha256(h.codeSecret) !in codes
    && |row.challenge| == 43 && (forall i :: 0 <= i < 43 ==> row.challenge[i] in URL_SAFE_LETTERS)
    && exists o :: GoesTo(cfg, row.redirect, o)
  }

  /** The login session: pending when the user has MFA and the flag could be set, revoked when the hook
      failed and that could be written. */
  ghost function NewSession(u: Id, h: HandlerAnswers, now: int): S.Session {
    var mfa := h.hasMfa && !h.mfaFails;
    S.Session(u, Sha256(h.secret), now, h.expiresAt, now, !mfa && h.hookFails && !h.revokeFails, mfa && !h.flagFails, h.staff)
  }

  lemma StartedSession(sessions: S.Table, u: Id, h: HandlerAnswers, now: int)
    ensures Starts(sessions, h) ==>
      !NewSession(u, h, now).revoked && NewSession(u, h, now).mfaPending == (h.hasMfa && !h.mfaFails)
    ensures Opens(sessions, h) && !Starts(sessions, h) && !h.revokeFails && !(h.hasMfa && !h.mfaFails && h.flagFails) ==>
      NewSession(u, h, now).revoked
    ensures NewSession(u, h, now).revoked ==> !Starts(sessions, h)
    ensures Starts(sessions, h) ==> Opens(sessions, h)
  {
    hide Opens;
  }

  /** The code: for the session, the link's organization and challenge, and an origin its redirect goes to;
      it lives for a minute. */
  ghost predicate IsCodeOf(cfg: Config, sid: Id, row: Token, now: int, c: Code) {
    && c == Code(sid, row.org, c.origin, row.challenge, now, now + 60 * 1_000_000_000, false)
    && GoesTo(cfg, row.redirect, c.origin)
  }

  lemma CodeSpelledOut(cfg: Config, sid: Id, row: Token, now: int)
    ensures CanMint(cfg, row) <==>
      && |row.challenge| == 43 && (forall i :: 0 <= i < 43 ==> row.challenge[i] in URL_SAFE_LETTERS)
      && exists o :: GoesTo(cfg, row.redirect, o)
    ensures CanMint(cfg, row) ==> IsCodeOf(cfg, sid, row, now, CodeFor(cfg, sid, row, now))
  {
    ChallengeSpelledOut(row.challenge);
    DestinationGoes(cfg, row.redirect);
    hide GoesTo, IsCodeChallenge, Destination;
  }

  /** How the part of a sign-in after verify ends: with a code for a new session, or with neither; a session
      that is not handed over is revoked, unless that fails or its MFA flag could not be set. */
  ghost predicate Ends(cfg: Config, row: Token, u: Id, h: HandlerAnswers, now: int, sessions: S.Table, codes: Codes,
                       sessions': S.Table, codes': Codes, code: Option<string>)
  {
    && (code.Some? <==> Starts(sessions, h) && Hands(cfg, row, codes, h))
    && (code.Some? ==>
          && code.value == h.codeSecret && CanMint(cfg, row)
          && codes' == codes[Sha256(h.codeSecret) := CodeFor(cfg, h.sid, row, now)]
          && IsCodeOf(cfg, h.sid, row, now, CodeFor(cfg, h.sid, row, now))
          && sessions' == sessions[h.sid := NewSession(u, h, now)])
    && (code.None? ==> codes' == codes)
    && (code.None? && Opens(sessions, h) && !h.revokeFails && !(h.hasMfa && !h.mfaFails && h.flagFails) ==>
          sessions' == sessions[h.sid := NewSession(u, h, now).(revoked := true)])
    && (!Opens(sessions, h) ==> sessions' == sessions)
  }

  /** What starting the session and handing over the code come to together. */
  lemma EndOfSignIn(cfg: Config, row: Token, u: Id, h: HandlerAnswers, now: int, sessions: S.Table, codes: Codes,
                    ok: bool, started: S.Table, sessions': S.Table, codes': Codes, code: Option<string>)
    requires ok <==> Starts(sessions, h)
    requires started == if Opens(sessions, h) then sessions[h.sid := NewSession(u, h, now)] else sessions
    requires !ok ==> sessions' == started && codes' == codes && code.None?
    requires ok ==> (code.Some? <==> !h.codeFails && CanMint(cfg, row) && Sha256(h.codeSecret) !in codes && h.sid in started)
    requires code.Some? ==> code.value == h.codeSecret && sessions' == started
    requires code.Some? ==> codes' == codes[Sha256(h.codeSecret) := CodeFor(cfg, h.sid, row, now)]
    requires ok && code.None? ==>
      codes' == codes && sessions' == if h.revokeFails then started else S.RevokeById(started, h.sid)
    ensures Ends(cfg, row, u, h, now, sessions, codes, sessions', codes', code)
  {
    CodeSpelledOut(cfg, h.sid, row, now);
    HandingSpelledOut(cfg, row, codes, h);
    StartedSession(sessions, u, h, now);
    hide CanMint, CodeFor, IsCodeOf, Hands, Starts, Opens, NewSession;
  }

  lemma HandingSpelledOut(cfg: Config, row: Token, codes: Codes, h: HandlerAnswers)
    ensures Hands(cfg, row, codes, h) <==> !h.codeFails && Sha256(h.codeSecret) !in codes && CanMint(cfg, row)
  {
    CodeSpelledOut(cfg, h.sid, row, 0);
    hide CanMint, CodeFor, GoesTo, IsCodeOf;
  }

  /** With one first account, or none, these are opposites. */
  lemma SettlingIsDecided(cfg: Config, users: map<Id, User>, row: Token, a: Answers)
    requires forall u, v :: FirstOf(users, row.email, u) && FirstOf(users, row.email, v) ==> u == v
    ensures SettlesOnNobody(cfg, users, row, a) <==> !exists u :: SettlesOn(cfg, users, row, a, u)
  {
    SomebodyIsFirst(users, row.email);
    if Nobody(users, row.email) {
      assert SettlesOn(cfg, users, row, a, a.newId) <==> !SettlesOnNobody(cfg, users, row, a);
    } else {
      var u :| FirstOf(users, row.email, u);
      assert SettlesOn(cfg, users, row, a, u) <==> !SettlesOnNobody(cfg, users, row, a);
    }
    hide FirstOf, Nobody, Creates, Admits;
  }

  lemma SomebodyIsFirst(users: map<Id, User>, email: string)
    ensures Nobody(users, email) || exists u :: FirstOf(users, email, u)
  {
    OldestExists(users, email);
    if u :| u in users && Oldest(users, email, u) {
      assert FirstOf(users, email, u);
    }
  }

  /** The users afterwards: the account verified, or newly created. */
  ghost function Settled(users: map<Id, User>, email: string, a: Answers, u: Id, now: int): map<Id, User> {
    if u in users then users[u := users[u].(verified := true)]
    else users[u := User(email, !a.confirmFails, S.Active, false, now)]
  }

  /** A process moves on to a stage, or its sign-in ends. */
  function Turn(procs: map<nat, Proc>, pid: nat, ok: bool, next: VerifyStage): map<nat, Proc>
    requires pid in procs && procs[pid].Verifying?
  {
    if ok then procs[pid := procs[pid].(stage := next)] else procs - {pid}
  }

  lemma InsertStep(cfg: Config, w: World, pid: nat, e: Env)
    requires pid in w.procs && w.procs[pid].Verifying? && w.procs[pid].stage.Insert? && e.id !in w.userIds
    ensures var email := w.procs[pid].rec.email; var ok := !e.fails && !EmailTaken(w.users, email);
      Step(cfg, w, Continue(pid, e)) ==
        w.(users := if ok then w.users[e.id := User(email, false, S.Active, false, w.now)] else w.users,
           userIds := if ok then w.userIds + {e.id} else w.userIds,
           procs := Turn(w.procs, pid, true, if ok then Profile(e.id) else Refind))
  {
    hide EmailTaken;
  }

  lemma FetchStep(cfg: Config, w: World, pid: nat, u: Id, e: Env)
    requires pid in w.procs && w.procs[pid].Verifying? && w.procs[pid].stage == Fetch(u)
    ensures var ok := MayComplete(w, u, e.fails) && Destination(cfg, w.procs[pid].rec.redirect).Some?;
      Step(cfg, w, Continue(pid, e)) == w.(procs := Turn(w.procs, pid, ok, Open(u)))
  {
    hide Destination;
  }

  lemma GateStep(cfg: Config, w: World, pid: nat, u: Id, verified: bool, e: Env)
    requires pid in w.procs && w.procs[pid].Verifying? && w.procs[pid].stage == Gate(u, verified)
    ensures var ok := !e.fails && e.yes && (verified ==> Destination(cfg, w.procs[pid].rec.redirect).Some?);
      Step(cfg, w, Continue(pid, e)) == w.(procs := Turn(w.procs, pid, ok, if verified then Open(u) else RevokeOld(u)))
  {
    hide Destination;
  }

  lemma MarkStep(cfg: Config, w: World, pid: nat, u: Id, e: Env)
    requires pid in w.procs && w.procs[pid].Verifying? && w.procs[pid].stage == MarkVerified(u)
    ensures var ok := !e.fails && Destination(cfg, w.procs[pid].rec.redirect).Some?;
      Step(cfg, w, Continue(pid, e)) ==
        w.(users := if !e.fails && u in w.users then w.users[u := w.users[u].(verified := true)] else w.users,
           procs := Turn(w.procs, pid, ok, Open(u)))
  {
    hide Destination;
  }

  /** The row's challenge is well formed and its destination has an origin. */
  predicate CanMint(cfg: Config, row: Token) {
    var dest := Destination(cfg, row.redirect);
    IsCodeChallenge(row.challenge) && dest.Some? && dest.value.origin.Some?
  }

  function CodeFor(cfg: Config, sid: Id, row: Token, now: int): Code
    requires CanMint(cfg, row)
  {
    Code(sid, row.org, Destination(cfg, row.redirect).value.origin.value, row.challenge, now, now + MAGIC_LINK_CODE_TTL, false)
  }

  function MintOfCode(token: Digest, u: Id, c: Code, now: int): Minted {
    Minted(token, c.session, u, c.org, c.challenge, c.origin, c.createdAt, now)
  }

  lemma OpenStage(cfg: Config, w: World, pid: nat, u: Id, e: Env)
    requires pid in w.procs && w.procs[pid].Verifying? && w.procs[pid].stage == Open(u)
    ensures Step(cfg, w, Continue(pid, e)) == OpenSession(w, pid, u, e)
  {
    hide OpenSession;
  }

  lemma OpenStep(cfg: Config, w: World, pid: nat, u: Id, e: Env)
    requires pid in w.procs && w.procs[pid].Verifying? && w.procs[pid].stage == Open(u)
    requires e.id !in w.sessionIds && e.secret !in w.secrets
    ensures var ok := !e.fails && u in w.users && S.HashFree(w.sessions, Sha256(e.secret), None);
      var w' := Step(cfg, w, Continue(pid, e));
      && w' == w.(sessions := w'.sessions, sessionIds := w'.sessionIds, secrets := w'.secrets, procs := w'.procs)
      && w'.procs == Turn(w.procs, pid, ok, AskMfa(u, e.id)) && w'.secrets <= w.secrets + {e.secret}
      && w'.sessions ==
         if ok then w.sessions[e.id := S.Session(u, Sha256(e.secret), e.stamp, e.expiresAt, e.stamp, false, false, e.yes)]
         else w.sessions
  {
    OpenStage(cfg, w, pid, u, e);
    hide Step, S.HashFree;
  }

  lemma MfaStep(cfg: Config, w: World, pid: nat, u: Id, sid: Id, e: Env)
    requires pid in w.procs && w.procs[pid].Verifying? && w.procs[pid].stage == AskMfa(u, sid)
    ensures Step(cfg, w, Continue(pid, e)) ==
      w.(procs := Turn(w.procs, pid, true, if !e.fails && e.yes then FlagMfa(u, sid) else LoginHook(u, sid)))
  {
  }

  lemma FlagStep(cfg: Config, w: World, pid: nat, u: Id, sid: Id, e: Env)
    requires pid in w.procs && w.procs[pid].Verifying? && w.procs[pid].stage == FlagMfa(u, sid)
    ensures Step(cfg, w, Continue(pid, e)) ==
      w.(sessions := if e.fails then w.sessions else S.SetMfaPending(w.sessions, sid, true),
         procs := Turn(w.procs, pid, !e.fails, Mint(u, sid)))
  {
    hide S.SetMfaPending;
  }

  lemma HookStep(cfg: Config, w: World, pid: nat, u: Id, sid: Id, e: Env)
    requires pid in w.procs && w.procs[pid].Verifying? && w.procs[pid].stage == LoginHook(u, sid)
    ensures Step(cfg, w, Continue(pid, e)) ==
      w.(procs := Turn(w.procs, pid, true, if e.fails then DropSession(sid) else Mint(u, sid)))
  {
  }

  lemma DropOpenedStep(cfg: Config, w: World, pid: nat, sid: Id, e: Env)
    requires pid in w.procs && w.procs[pid].Verifying? && w.procs[pid].stage == DropSession(sid)
    ensures Step(cfg, w, Continue(pid, e)) ==
      w.(sessions := if e.fails then w.sessions else S.RevokeById(w.sessions, sid), procs := w.procs - {pid})
  {
    hide S.RevokeById;
  }

  lemma MintStep(cfg: Config, w: World, pid: nat, u: Id, sid: Id, e: Env)
    requires pid in w.procs && w.procs[pid].Verifying? && w.procs[pid].stage == Mint(u, sid)
    requires e.secret !in w.secrets && e.stamp == w.now
    ensures var p := w.procs[pid]; var c := Sha256(e.secret);
      Step(cfg, w, Continue(pid, e)) ==
        if !e.fails && CanMint(cfg, p.rec) && c !in w.codes && sid in w.sessions then
          w.(codes := w.codes[c := CodeFor(cfg, sid, p.rec, w.now)], secrets := w.secrets + {e.secret}, procs := w.procs - {pid},
             mints := w.mints[c := MintOfCode(p.token, u, CodeFor(cfg, sid, p.rec, w.now), w.now)])
        else w.(procs := Turn(w.procs, pid, true, DropSession(sid)))
  {
    hide Destination, IsCodeChallenge;
  }

  lemma NoneIsOldest(users: map<Id, User>, email: string, u: Id)
    requires NoMatch(users, email)
    ensures forall v :: v in users ==> !Oldest(users, email, v)
    ensures !Oldest(users, email, u)
  {
  }

  lemma OldestIsAMatch(users: map<Id, User>, email: string, u: Id)
    requires Oldest(users, email, u)
    ensures !NoMatch(users, email)
  {
  }

  /** Where a sign-up goes after a statement that changes no table. */
  function NextOf(s: VerifyStage, fails: bool): VerifyStage {
    match s
    case Profile(u) => if fails then Undo(u) else Confirm(u)
    case Hook(u) => if fails then Undo(u) else Fetch(u)
    case _ => s
  }

  /** The records of requests, codes and exchanges, the clock and the drawn secrets are untouched. */
  ghost predicate Recorded(w: World, w': World) {
    && w'.requests == w.requests && w'.mints == w.mints && w'.exchanges == w.exchanges && w'.secrets == w.secrets
    && w'.sessionIds == w.sessionIds && w'.now == w.now
  }

  lemma ConsumeStep(cfg: Config, w: World, pid: nat, token: string, tenant: Tenant)
    requires pid !in w.procs
    ensures var h := Sha256(Trim(token));
      Step(cfg, w, BeginVerify(pid, token, tenant)) ==
        if TokenShape(Trim(token)) && !tenant.UnknownTenant? && TokenMatches(w.tokens, h, TenantFilter(tenant), w.now) then
          w.(tokens := MarkToken(w.tokens, h), procs := w.procs[pid := Verifying(h, w.tokens[h], Resolve)],
             uses := w.uses + [TokenUse(h, w.now, w.tokens[h].expiresAt)])
        else w
  {
    hide TokenShape, Trim;
  }

  lemma StageStep(cfg: Config, w: World, pid: nat, e: Env)
    requires pid in w.procs && w.procs[pid].Verifying?
    ensures Step(cfg, w, Continue(pid, e)) ==
      if InAccountPhase(w.procs[pid].stage) then StepAccount(cfg, w, pid, e) else StepSession(cfg, w, pid, e)
  {
    hide StepAccount, StepSession;
  }

  /** The lookup step, with the row the query returns as its answer. */
  lemma FindStep(cfg: Config, w: World, pid: nat, e: Env)
    requires pid in w.procs && w.procs[pid].Verifying? && w.procs[pid].stage.Find?
    ensures var w' := Step(cfg, w, Continue(pid, e)); var email := w.procs[pid].rec.email;
      && w' == w.(procs := w'.procs)
      && (e.fails ==> w'.procs == w.procs - {pid})
      && (!e.fails && Oldest(w.users, email, e.id) ==>
            w'.procs == if w.users[e.id].status == S.Active then
                          w.procs[pid := w.procs[pid].(stage := Gate(e.id, w.users[e.id].verified))]
                        else w.procs - {pid})
      && (!e.fails && NoMatch(w.users, email) ==>
            w'.procs == if cfg.publicSignup then w.procs[pid := w.procs[pid].(stage := Insert)] else w.procs - {pid})
  {
    StageStep(cfg, w, pid, e);
    hide Step;
  }

  /** A non-empty set of matching rows has an oldest one. */
  lemma OldestExists(users: map<Id, User>, email: string)
    ensures NoMatch(users, email) || exists u :: u in users && Oldest(users, email, u)
  {
    var matching := set u | u in users && Matching(users, email, u);
    assert forall u :: u in users && Matching(users, email, u) ==> u in matching;
    if matching != {} {
      var u := EarliestOf(users, matching);
      assert Oldest(users, email, u);
    }
  }

  lemma {:induction false} EarliestOf(users: map<Id, User>, s: set<Id>) returns (u: Id)
    requires s != {} && s <= users.Keys
    ensures u in s && forall v :: v in s ==> users[u].createdAt <= users[v].createdAt
    decreases |s|
  {
    u :| u in s;
    if s != {u} {
      var rest := s - {u};
      var r := EarliestOf(users, rest);
      assert s == rest + {u};
      if users[r].createdAt < users[u].createdAt {
        u := r;
      }
    }
  }

  datatype Grant = Grant(token: string, user: Id, email: string)

  predicate Issuable(t: S.Table, sid: Id, h: Digest, now: int) {
    sid in t && S.Live(t[sid], now) && S.HashFree(t, h, Some(sid))
  }

  /** The session can be given a new bearer and its account is active. */
  predicate Grants(w: World, sid: Id, secret: string, issueFails: bool, readFails: bool) {
    && !issueFails && Issuable(w.sessions, sid, Sha256(secret), w.now)
    && MayComplete(w, w.sessions[sid].user, readFails)
  }

  predicate Redeems(cfg: Config, w: World, code: string, origin: Option<string>, verifier: string, secret: string,
                    issueFails: bool, readFails: bool) {
    && ReachesRow(w, code, verifier) && Proves(cfg, w.codes[Sha256(code)], origin, verifier)
    && Grants(w, w.codes[Sha256(code)].session, secret, issueFails, readFails)
  }

  function Refusing(w: World, pid: nat): World
    requires pid in w.procs && w.procs[pid].Exchanging?
  {
    w.(procs := w.procs[pid := w.procs[pid].(step := DropIssued)])
  }

  function CompletedBy(w: World, pid: nat, u: Id): World
    requires pid in w.procs && w.procs[pid].Exchanging? && u in w.users
  {
    var x := w.procs[pid];
    End(w, pid).(exchanges := w.exchanges + [Exchanged(x.code, u, w.users[u].email, x.row.org, x.verifier, x.origin, x.at,
                                                               u in w.anonymized)])
  }

  /** The bearer statement on the session of the code. */
  lemma IssueStep(cfg: Config, w: World, pid: nat, e: Env)
    requires pid in w.procs && w.procs[pid].Exchanging? && w.procs[pid].step.Issue? && e.secret !in w.secrets
    ensures var sid := w.procs[pid].row.session; var h := Sha256(e.secret);
      Step(cfg, w, Continue(pid, e)) ==
        if !e.fails && sid in w.sessions && S.Live(w.sessions[sid], w.now) && S.HashFree(w.sessions, h, Some(sid)) then
          w.(sessions := w.sessions[sid := w.sessions[sid].(tokenHash := h, lastActive := w.now)],
             secrets := w.secrets + {e.secret},
             procs := w.procs[pid := w.procs[pid].(step := ReadUser(w.sessions[sid].user))])
        else End(w, pid)
  {
    hide S.HashFree;
  }

  /** The consuming statement of an exchange touches nothing but the row, whatever the checks say. */
  lemma TakeStep(cfg: Config, w: World, pid: nat, code: string, origin: Option<string>, verifier: string)
    requires pid !in w.procs
    ensures var w' := DoBeginExchange(cfg, w, pid, code, origin, verifier); var c := Sha256(code);
      && Step(cfg, w, BeginExchange(pid, code, origin, verifier)) == w'
      && w' == w.(codes := w'.codes, uses := w'.uses, procs := w'.procs)
      && w'.procs == (if ReachesRow(w, code, verifier) && Proves(cfg, w.codes[c], origin, verifier) then
                        w.procs[pid := Exchanging(c, w.codes[c], verifier, w.codes[c].origin, w.now, Issue)]
                      else w.procs)
      && w'.codes == if ReachesRow(w, code, verifier) then MarkCode(w.codes, c) else w.codes
  {
    hide ReachesRow, Proves;
    if ReachesRow(w, code, verifier) {
      ReachedIn(w, code, verifier);
    }
  }

  lemma ReachedIn(w: World, code: string, verifier: string)
    requires ReachesRow(w, code, verifier)
    ensures Sha256(code) in w.codes
  {
  }

  lemma RequestStep(cfg: Config, w: World, r: LinkRequest, allowed: bool, secret: string, stored: bool)
    requires secret !in w.secrets
    ensures var w' := DoRequest(cfg, w, r, allowed, secret, w.now, stored);
      && Step(cfg, w, Request(r, allowed, secret, w.now, stored)) == w'
      && w'.users == w.users && w'.sessions == w.sessions && w'.codes == w.codes && w'.now == w.now
      && w'.anonymized == w.anonymized
      && w'.tokens == if allowed && stored && Acceptable(r) && Sha256(secret) !in w.tokens then
                        w.tokens[Sha256(secret) := TokenFor(cfg, r, w.now)]
                      else w.tokens
  {
    hide Acceptable, TokenFor, Normalize;
  }

  lemma DropStep(cfg: Config, w: World, pid: nat, e: Env)
    requires pid in w.procs && w.procs[pid].Exchanging? && w.procs[pid].step.DropIssued?
    ensures Step(cfg, w, Continue(pid, e)) ==
      End(w, pid).(sessions := if e.fails then w.sessions else S.RevokeById(w.sessions, w.procs[pid].row.session))
  {
    hide S.RevokeById;
  }

  lemma ReadStep(cfg: Config, w: World, pid: nat, u: Id, e: Env)
    requires pid in w.procs && w.procs[pid].Exchanging? && w.procs[pid].step == ReadUser(u)
    ensures Step(cfg, w, Continue(pid, e)) ==
      if MayComplete(w, u, e.fails) then CompletedBy(w, pid, u) else Refusing(w, pid)
    ensures MayComplete(w, u, e.fails) ==> CompletedBy(w, pid, u).users == w.users && CompletedBy(w, pid, u).sessions == w.sessions
    ensures MayComplete(w, u, e.fails) ==> CompletedBy(w, pid, u).tokens == w.tokens && CompletedBy(w, pid, u).codes == w.codes
    ensures MayComplete(w, u, e.fails) ==> CompletedBy(w, pid, u).now == w.now
  {
  }

  /** Whatever calls a service has answered, each exchange it granted goes back to one request it
      accepted: same organization, the verifier of its challenge, its address, its destination's origin, and
      a code consumed within 60 seconds of its minting. */
  lemma CallsAgree(s: Service, j: nat)
    requires s.Valid() && j < |s.w.exchanges|
    ensures var x := s.w.exchanges[j];
      && A.Traceable(s.w, j)
      && var a := A.RequestOf(s.w, j);
         var m := A.MintOf(s.w, j);
      && IsCodeVerifier(x.verifier) && a.challenge == PkceChallenge(s.cfg.sha, x.verifier) && a.org == x.org
      && Lower(x.email) == a.email
      && Destination(s.cfg, a.redirect).Some? && Destination(s.cfg, a.redirect).value.origin == Some(x.origin)
      && GoesTo(s.cfg, a.redirect, x.origin)
      && a.at <= m.at <= x.at < m.stamp + 60 * 1_000_000_000
  {
    ReachedIsRun(s.cfg, s.run, s.w);
    A.ExchangeAgreesWithRequest(s.cfg, s.run, s.w, j);
    A.RenamedWasAnonymized(s.cfg, s.run, s.w, j);
    hide Run, Reached, IsCodeVerifier, PkceChallenge, Destination;
  }
}
