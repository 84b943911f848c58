/** The magic-link protocol in code-flow mode, one SQL statement at a time.

    request -> token row -> verify (consume, find or create the account, take it over, open a session,
    mint a code) -> code row -> exchange -> new bearer token. Any number of requests, verifies and
    exchanges interleave with each other, with purges and with every other writer of users and sessions. */
module MagicLink {
  import opened Prelude
  import opened Pkce
  import opened Runs
  import S = Sessions

  type Id = S.Id

  const MAGIC_LINK_CODE_TTL := 60 * 1_000_000_000
  const DEFAULT_MAGIC_LINK_TTL := 15 * 60 * 1_000_000_000

  /** A parsed URL: its normalized http(s) origin, if it has one, and whether it passes the screens for
      blanks, control characters, backslashes and length. */
  datatype Url = Url(origin: Option<string>, plain: bool, text: string)

  datatype Config = Config(sha: string -> Digest32, ttl: int, allowlist: set<string>,
                           defaultRedirect: Option<Url>, callback: Option<Url>, publicSignup: bool)

  datatype User = User(email: string, verified: bool, status: S.Status, deleted: bool, createdAt: int)

  datatype Token = Token(org: Id, email: string, redirect: Option<Url>, challenge: string,
                         createdAt: int, expiresAt: int, consumed: bool)

  datatype Code = Code(session: Id, org: Id, origin: string, challenge: string,
                       createdAt: int, expiresAt: int, consumed: bool)

  type Tokens = map<Digest, Token>
  type Codes = map<Digest, Code>

  // ----- statements on tokens and codes -----

  function InsertToken(t: Tokens, h: Digest, row: Token): Option<Tokens> {
    if h in t then None else Some(t[h := row])
  }

  /** `WHERE token_hash AND consumed_at IS NULL AND expires_at > NOW() AND (org IS NULL OR organization_id = org)` */
  predicate TokenMatches(t: Tokens, h: Digest, org: Option<Id>, now: int) {
    h in t && !t[h].consumed && t[h].expiresAt > now && (org.None? || org.value == t[h].org)
  }

  function MarkToken(t: Tokens, h: Digest): Tokens
    requires h in t
  {
    t[h := t[h].(consumed := true)]
  }

  function PurgeTokens(t: Tokens, before: int): Tokens {
    map h | h in t && t[h].expiresAt >= before :: t[h]
  }

  function InsertCode(c: Codes, sessions: S.Table, h: Digest, row: Code): Option<Codes> {
    if h in c || row.session !in sessions then None else Some(c[h := row])
  }

  predicate CodeMatches(c: Codes, h: Digest, now: int) {
    h in c && !c[h].consumed && c[h].expiresAt > now
  }

  function MarkCode(c: Codes, h: Digest): Codes
    requires h in c
  {
    c[h := c[h].(consumed := true)]
  }

  function PurgeCodes(c: Codes, before: int): Codes {
    map h | h in c && c[h].expiresAt >= before :: c[h]
  }

  // ----- redirects -----

  predicate Allowed(cfg: Config, url: Option<Url>) {
    url.Some? && url.value.plain && url.value.origin.Some? && url.value.origin.value in cfg.allowlist
  }

  /** Where the code is sent: the allowlisted redirect, else the configured defaults. */
  function Destination(cfg: Config, redirect: Option<Url>): Option<Url> {
    if Allowed(cfg, redirect) then redirect
    else if cfg.defaultRedirect.Some? then cfg.defaultRedirect
    else cfg.callback
  }

  /** The redirect is a plain URL of an allowlisted origin. */
  ghost predicate Asks(cfg: Config, redirect: Option<Url>, origin: string) {
    redirect.Some? && redirect.value.plain && redirect.value.origin == Some(origin) && origin in cfg.allowlist
  }

  /** Where a code for the redirect may go: to the origin asked for, if that is allowlisted; otherwise to
      the default's; and to the callback's only when there is no default. */
  ghost predicate GoesTo(cfg: Config, redirect: Option<Url>, origin: string) {
    || Asks(cfg, redirect, origin)
    || ((forall o :: !Asks(cfg, redirect, o)) && cfg.defaultRedirect.Some? && cfg.defaultRedirect.value.origin == Some(origin))
    || ((forall o :: !Asks(cfg, redirect, o)) && cfg.defaultRedirect.None?
        && cfg.callback.Some? && cfg.callback.value.origin == Some(origin))
  }

  ghost predicate GoesSomewhere(cfg: Config, redirect: Option<Url>) {
    (exists o :: Asks(cfg, redirect, o)) || cfg.defaultRedirect.Some? || cfg.callback.Some?
  }

  lemma DestinationGoes(cfg: Config, redirect: Option<Url>)
    ensures Destination(cfg, redirect).Some? <==> GoesSomewhere(cfg, redirect)
    ensures forall o :: GoesTo(cfg, redirect, o) <==>
      Destination(cfg, redirect).Some? && Destination(cfg, redirect).value.origin == Some(o)
  {
    if redirect.Some? && redirect.value.origin.Some? {
      assert Asks(cfg, redirect, redirect.value.origin.value) <==> Allowed(cfg, redirect);
    }
  }

  lemma AllowedAsks(cfg: Config, redirect: Option<Url>)
    ensures Allowed(cfg, redirect) <==> exists o :: Asks(cfg, redirect, o)
  {
    if redirect.Some? && redirect.value.origin.Some? {
      assert Asks(cfg, redirect, redirect.value.origin.value) <==> Allowed(cfg, redirect);
    }
  }

  function LinkTtl(cfg: Config): int {
    if cfg.ttl > 0 then cfg.ttl else DEFAULT_MAGIC_LINK_TTL
  }

  // ----- the state -----

  datatype VerifyStage =
    | Resolve | Find
    | Insert | Profile(user: Id) | Confirm(user: Id) | Hook(user: Id) | Undo(user: Id) | Refind | Fetch(user: Id)
    | Gate(user: Id, verified: bool) | RevokeOld(user: Id) | MarkVerified(user: Id)
    | Open(user: Id) | AskMfa(user: Id, sid: Id) | FlagMfa(user: Id, sid: Id) | LoginHook(user: Id, sid: Id)
    | Mint(user: Id, sid: Id) | DropSession(sid: Id)

  datatype ExchangeStage = Issue | ReadUser(user: Id) | DropIssued

  datatype Proc =
    /** `rec` is the row the consuming statement returned. */
    | Verifying(token: Digest, rec: Token, stage: VerifyStage)
    | Exchanging(code: Digest, row: Code, verifier: string, origin: string, at: int, step: ExchangeStage)

  /** A `process` call that stored a token, as it was asked. */
  datatype Asked = Asked(email: string, org: Id, challenge: string, redirect: Option<Url>, at: int)

  /** A `CreateCode` call that stored a code; `stamp` is the clock it read. */
  datatype Minted = Minted(token: Digest, session: Id, user: Id, org: Id, challenge: string, origin: string,
                           stamp: int, at: int)

  /** A successful `Exchange`; `at` is when it consumed the code, and `renamed` whether the account it read
      had been anonymized by then. */
  datatype Exchanged = Exchanged(code: Digest, user: Id, email: string, org: Id, verifier: string, origin: string, at: int,
                                 renamed: bool)

  /** A consuming statement that took effect; `proved` is whether the checks on the code then passed. */
  datatype Use =
    | TokenUse(hash: Digest, at: int, expiresAt: int)
    | CodeUse(hash: Digest, at: int, expiresAt: int, proved: bool)

  datatype World = World(
    now: int,
    users: map<Id, User>,
    sessions: S.Table,
    tokens: Tokens,
    codes: Codes,
    procs: map<nat, Proc>,
    // what has been generated so far
    secrets: set<string>,
    userIds: set<Id>,
    sessionIds: set<Id>,
    // history
    requests: map<Digest, Asked>,
    mints: map<Digest, Minted>,
    exchanges: seq<Exchanged>,
    uses: seq<Use>,
    anonymized: set<Id>)

  const START := World(0, map[], map[], map[], map[], map[], {}, {}, {}, map[], map[], [], [], {})

  // ----- request -----

  /** The request as parsed; `wellFormed` is the verdict of the address parser on the normalized text and
      `tenant` the organization it resolves to, if any. */
  datatype LinkRequest = LinkRequest(email: string, wellFormed: bool, tenant: Option<Id>, redirect: Option<Url>, challenge: string)

  predicate Acceptable(r: LinkRequest) {
    r.wellFormed && 0 < |Normalize(r.email)| <= 254 && r.tenant.Some? && IsCodeChallenge(r.challenge)
  }

  function TokenFor(cfg: Config, r: LinkRequest, stamp: int): Token
    requires r.tenant.Some?
  {
    Token(r.tenant.value, Normalize(r.email), if Allowed(cfg, r.redirect) then r.redirect else None, r.challenge,
          stamp, stamp + LinkTtl(cfg), false)
  }

  function TokenStored(w: World, h: Digest, row: Token, a: Asked): World {
    w.(tokens := w.tokens[h := row], secrets := w.secrets + {h.preimage}, requests := w.requests[h := a])
  }

  /** `process`: `allowed` is the answer of both rate limits, `stored` whether the insert took effect. */
  function DoRequest(cfg: Config, w: World, r: LinkRequest, allowed: bool, secret: string, stamp: int, stored: bool): World {
    if !allowed || !stored || !Acceptable(r) || secret in w.secrets || stamp > w.now then w
    else
      match InsertToken(w.tokens, Sha256(secret), TokenFor(cfg, r, stamp))
      case None => w
      case Some(_) =>
        TokenStored(w, Sha256(secret), TokenFor(cfg, r, stamp),
                    Asked(Normalize(r.email), r.tenant.value, r.challenge, r.redirect, w.now))
  }

  // ----- verify -----

  datatype Tenant = NoTenant | Tenant(org: Id) | UnknownTenant

  predicate TokenShape(t: string) {
    t != "" && |t| <= MAGIC_LINK_TOKEN_MAX_LEN
  }

  function TenantFilter(t: Tenant): Option<Id> {
    if t.Tenant? then Some(t.org) else None
  }

  /** `Verify` up to and including the consuming statement. */
  function DoBeginVerify(w: World, pid: nat, token: string, tenant: Tenant): World {
    var h := Sha256(Trim(token));
    if pid in w.procs || !TokenShape(Trim(token)) || tenant.UnknownTenant?
       || !TokenMatches(w.tokens, h, TenantFilter(tenant), w.now) then w
    else
      w.(tokens := MarkToken(w.tokens, h), procs := w.procs[pid := Verifying(h, w.tokens[h], Resolve)],
         uses := w.uses + [TokenUse(h, w.now, w.tokens[h].expiresAt)])
  }

  /** One answer of the environment: does the statement fail, the answer to a yes/no lookup, a fresh id
      and secret, and a clock reading. */
  datatype Env = Env(fails: bool, yes: bool, id: Id, secret: string, stamp: int, expiresAt: int)

  predicate Matching(users: map<Id, User>, email: string, u: Id) {
    u in users && !users[u].deleted && Lower(users[u].email) == Lower(email)
  }

  /** `GetByEmailFold`: of the undeleted rows whose address matches up to case, an oldest one. */
  predicate Oldest(users: map<Id, User>, email: string, u: Id) {
    Matching(users, email, u) && forall v :: v in users && Matching(users, email, v) ==> users[u].createdAt <= users[v].createdAt
  }

  predicate NoMatch(users: map<Id, User>, email: string) {
    forall u :: u in users ==> !Matching(users, email, u)
  }

  predicate EmailTaken(users: map<Id, User>, email: string) {
    exists u :: u in users && users[u].email == email
  }

  function End(w: World, pid: nat): World {
    w.(procs := w.procs - {pid})
  }

  function Goto(w: World, pid: nat, stage: VerifyStage): World
    requires pid in w.procs && w.procs[pid].Verifying?
  {
    w.(procs := w.procs[pid := w.procs[pid].(stage := stage)])
  }

  /** The account was found, not created: its status decides, then the guards. */
  function Found(w: World, pid: nat, u: Id): World
    requires pid in w.procs && w.procs[pid].Verifying? && u in w.users
  {
    if w.users[u].status != S.Active then End(w, pid) else Goto(w, pid, Gate(u, w.users[u].verified))
  }

  /** Deleting a user row cascades to its sessions and their codes. */
  function DeleteUser(w: World, u: Id): World {
    var sessions := map s | s in w.sessions && w.sessions[s].user != u :: w.sessions[s];
    w.(users := w.users - {u}, sessions := sessions, codes := map c | c in w.codes && w.codes[c].session in sessions :: w.codes[c])
  }

  /** Statements that find or create the account. */
  function StepAccount(cfg: Config, w: World, pid: nat, e: Env): World
    requires pid in w.procs && w.procs[pid].Verifying?
  {
    var p := w.procs[pid];
    match p.stage
    case Resolve => if e.fails || !e.yes then End(w, pid) else Goto(w, pid, Find)
    case Find =>
      if e.fails then End(w, pid)
      else if Oldest(w.users, p.rec.email, e.id) then Found(w, pid, e.id)
      else if !NoMatch(w.users, p.rec.email) then w
      else if cfg.publicSignup then Goto(w, pid, Insert) else End(w, pid)
    case Insert =>
      if e.fails || e.id in w.userIds || EmailTaken(w.users, p.rec.email) then Goto(w, pid, Refind)
      else
        Goto(w.(users := w.users[e.id := User(p.rec.email, false, S.Active, false, w.now)], userIds := w.userIds + {e.id}),
             pid, Profile(e.id))
    case Profile(u) => Goto(w, pid, if e.fails then Undo(u) else Confirm(u))
    case Confirm(u) => Goto(if e.fails then w else Verified(w, u), pid, Hook(u))
    case Hook(u) => Goto(w, pid, if e.fails then Undo(u) else Fetch(u))
    case Undo(u) => Goto(DeleteUser(w, u), pid, Refind)
    case Refind => if !e.fails && Oldest(w.users, p.rec.email, e.id) then Found(w, pid, e.id) else End(w, pid)
    case Fetch(u) =>
      if e.fails || u !in w.users || w.users[u].deleted || w.users[u].status != S.Active then End(w, pid)
      else ChooseDestination(cfg, w, pid, u)
    case _ => w
  }

  function Verified(w: World, u: Id): World {
    if u in w.users then w.(users := w.users[u := w.users[u].(verified := true)]) else w
  }

  /** With nowhere to send a code, the sign-in ends and the link is spent. */
  function ChooseDestination(cfg: Config, w: World, pid: nat, u: Id): World
    requires pid in w.procs && w.procs[pid].Verifying?
  {
    if Destination(cfg, w.procs[pid].rec.redirect).None? then End(w, pid) else Goto(w, pid, Open(u))
  }

  /** Statements that guard the account, open the session and mint the code. */
  function StepSession(cfg: Config, w: World, pid: nat, e: Env): World
    requires pid in w.procs && w.procs[pid].Verifying?
  {
    var p := w.procs[pid];
    match p.stage
    case Gate(u, verified) =>
      // `yes`: neither staff nor barred by a password
      if e.fails || !e.yes then End(w, pid)
      else if verified then ChooseDestination(cfg, w, pid, u)
      else Goto(w, pid, RevokeOld(u))
    case RevokeOld(u) =>
      if e.fails then End(w, pid)
      else Goto(w.(sessions := S.RevokeForUser(w.sessions, u, None)), pid, MarkVerified(u))
    case MarkVerified(u) =>
      // credentials and factors are deleted in between; any failure ends the sign-in
      if e.fails then End(w, pid) else ChooseDestination(cfg, Verified(w, u), pid, u)
    case Open(u) => OpenSession(w, pid, u, e)
    case AskMfa(u, sid) => Goto(w, pid, if !e.fails && e.yes then FlagMfa(u, sid) else LoginHook(u, sid))
    case FlagMfa(u, sid) =>
      if e.fails then End(w, pid)
      else Goto(w.(sessions := S.SetMfaPending(w.sessions, sid, true)), pid, Mint(u, sid))
    case LoginHook(u, sid) => Goto(w, pid, if e.fails then DropSession(sid) else Mint(u, sid))
    case Mint(u, sid) => MintCode(cfg, w, pid, u, sid, e)
    case DropSession(sid) => End(if e.fails then w else w.(sessions := S.RevokeById(w.sessions, sid)), pid)
    case _ => w
  }

  function OpenSession(w: World, pid: nat, u: Id, e: Env): World
    requires pid in w.procs && w.procs[pid].Verifying?
  {
    var h := Sha256(e.secret);
    if e.fails || e.id in w.sessionIds || e.secret in w.secrets || u !in w.users || !S.HashFree(w.sessions, h, None) then End(w, pid)
    else
      Goto(w.(sessions := w.sessions[e.id := S.Session(u, h, e.stamp, e.expiresAt, e.stamp, false, false, e.yes)],
              sessionIds := w.sessionIds + {e.id}, secrets := w.secrets + {e.secret}),
           pid, AskMfa(u, e.id))
  }

  /** `CreateCode` at the chosen destination; any failure revokes the session. */
  function MintCode(cfg: Config, w: World, pid: nat, u: Id, sid: Id, e: Env): World
    requires pid in w.procs && w.procs[pid].Verifying?
  {
    var p := w.procs[pid];
    var dest := Destination(cfg, p.rec.redirect);
    if dest.None? || dest.value.origin.None? || !IsCodeChallenge(p.rec.challenge) || e.fails
       || e.secret in w.secrets || e.stamp > w.now then Goto(w, pid, DropSession(sid))
    else
      var h := Sha256(e.secret);
      var origin := dest.value.origin.value;
      var row := Code(sid, p.rec.org, origin, p.rec.challenge, e.stamp, e.stamp + MAGIC_LINK_CODE_TTL, false);
      match InsertCode(w.codes, w.sessions, h, row)
      case None => Goto(w, pid, DropSession(sid))
      case Some(codes) =>
        w.(codes := codes, secrets := w.secrets + {e.secret}, procs := w.procs - {pid},
           mints := w.mints[h := Minted(p.token, sid, u, p.rec.org, p.rec.challenge, origin, e.stamp, w.now)])
  }

  // ----- exchange -----

  predicate CodeShape(c: string) {
    c != "" && |c| <= MAGIC_LINK_CODE_MAX_LEN
  }

  /** The checks made on the consumed row. */
  predicate Proves(cfg: Config, row: Code, origin: Option<string>, verifier: string) {
    && origin == Some(row.origin)
    && IsCodeChallenge(row.challenge) && PkceChallenge(cfg.sha, verifier) == row.challenge
  }

  /** The state right after the consuming statement. */
  function CodeTaken(w: World, c: Digest, proved: bool): World
    requires c in w.codes
  {
    w.(codes := MarkCode(w.codes, c), uses := w.uses + [CodeUse(c, w.now, w.codes[c].expiresAt, proved)])
  }

  /** The exchange goes on only when the checks pass; the row stays consumed when they fail. */
  function Checked(cfg: Config, w: World, pid: nat, c: Digest, row: Code, origin: Option<string>, verifier: string): World {
    if !Proves(cfg, row, origin, verifier) then w
    else w.(procs := w.procs[pid := Exchanging(c, row, verifier, row.origin, w.now, Issue)])
  }

  predicate ReachesRow(w: World, code: string, verifier: string) {
    CodeShape(code) && IsCodeVerifier(verifier) && CodeMatches(w.codes, Sha256(code), w.now)
  }

  /** `Exchange` up to the checks on the consumed row. */
  function DoBeginExchange(cfg: Config, w: World, pid: nat, code: string, origin: Option<string>, verifier: string): World {
    var c := Sha256(code);
    if pid in w.procs || !ReachesRow(w, code, verifier) then w
    else Checked(cfg, CodeTaken(w, c, Proves(cfg, w.codes[c], origin, verifier)), pid, c, w.codes[c], origin, verifier)
  }

  /** The account behind the session can be read and is active. */
  predicate MayComplete(w: World, u: Id, fails: bool) {
    !fails && u in w.users && !w.users[u].deleted && w.users[u].status == S.Active
  }

  function StepExchange(w: World, pid: nat, e: Env): World
    requires pid in w.procs && w.procs[pid].Exchanging?
  {
    var p := w.procs[pid];
    var sid := p.row.session;
    match p.step
    case Issue =>
      if e.fails || e.secret in w.secrets || sid !in w.sessions || !S.Live(w.sessions[sid], w.now) then End(w, pid)
      else
        (match S.IssueToken(w.sessions, sid, Sha256(e.secret), w.now)
         case None => End(w, pid)
         case Some(t) =>
           w.(sessions := t, secrets := w.secrets + {e.secret},
              procs := w.procs[pid := p.(step := ReadUser(w.sessions[sid].user))]))
    case ReadUser(u) =>
      if e.fails || u !in w.users || w.users[u].deleted || w.users[u].status != S.Active then
        w.(procs := w.procs[pid := p.(step := DropIssued)])
      else
        End(w, pid).(exchanges := w.exchanges + [Exchanged(p.code, u, w.users[u].email, p.row.org, p.verifier, p.origin, p.at,
                                                                    u in w.anonymized)])
    case DropIssued => End(if e.fails then w else w.(sessions := S.RevokeById(w.sessions, sid)), pid)
  }

  // ----- everyone else -----

  datatype Statement =
    | AddUser(id: Id, email: string, verified: bool)
    | AddSession(sid: Id, user: Id, secret: string, expiresAt: int)
    | Rotate(sid: Id, secret: string, expiresAt: int)
    | Revoke(sid: Id)
    | RevokeUser(user: Id, keep: Option<Id>)
    | SetStatus(user: Id, status: S.Status)
    | VerifyEmail(user: Id)
    | Anonymize(user: Id)
    | RemoveUser(user: Id)

  /** The address an anonymized account is given. */
  function Placeholder(u: Id): string {
    "deleted+" + Decimal(u) + "@anonymous.local"
  }

  function DoStatement(w: World, s: Statement): World {
    match s
    case AddUser(id, email, verified) =>
      if id in w.userIds || EmailTaken(w.users, email) then w
      else w.(users := w.users[id := User(email, verified, S.Active, false, w.now)], userIds := w.userIds + {id})
    case AddSession(sid, user, secret, expires) =>
      if sid in w.sessionIds || secret in w.secrets || user !in w.users || !S.HashFree(w.sessions, Sha256(secret), None) then w
      else w.(sessions := w.sessions[sid := S.Session(user, Sha256(secret), w.now, expires, w.now, false, false, false)],
              sessionIds := w.sessionIds + {sid}, secrets := w.secrets + {secret})
    case Rotate(sid, secret, expires) =>
      if secret in w.secrets then w
      else
        (match S.RotateToken(w.sessions, sid, Sha256(secret), expires, w.now)
         case None => w
         case Some(t) => w.(sessions := t, secrets := w.secrets + {secret}))
    case Revoke(sid) => w.(sessions := S.RevokeById(w.sessions, sid))
    case RevokeUser(user, keep) => w.(sessions := S.RevokeForUser(w.sessions, user, keep))
    case SetStatus(user, status) =>
      if user in w.users then w.(users := w.users[user := w.users[user].(status := status, deleted := false)]) else w
    case VerifyEmail(user) => Verified(w, user)
    case Anonymize(user) =>
      if user in w.users && !EmailTaken(w.users - {user}, Placeholder(user)) then
        w.(users := w.users[user := w.users[user].(email := Placeholder(user), status := S.Deleted, deleted := true)],
           anonymized := w.anonymized + {user})
      else w
    case RemoveUser(user) => DeleteUser(w, user)
  }

  /** Accounts and sessions as the session module sees them. */
  function Seen(w: World): S.Db {
    S.Db(map u | u in w.users :: S.User(w.users[u].status, w.users[u].deleted), w.sessions)
  }

  /** What the other writers do to sessions are the statements of the session module. */
  lemma WritersUseSessionStatements(scfg: S.Config, w: World, s: Statement)
    ensures s.AddSession? && s.sid !in w.sessionIds && s.sid !in w.sessions && s.secret !in w.secrets ==>
      DoStatement(w, s).sessions ==
        S.Exec(scfg, Seen(w), S.Event(S.Insert(s.sid, s.user, Sha256(s.secret), w.now, s.expiresAt, false), w.now)).sessions
    ensures s.Rotate? && s.secret !in w.secrets ==>
      DoStatement(w, s).sessions == S.Exec(scfg, Seen(w), S.Event(S.Rotate(s.sid, Sha256(s.secret), s.expiresAt), w.now)).sessions
    ensures s.Revoke? ==> DoStatement(w, s).sessions == S.Exec(scfg, Seen(w), S.Event(S.Revoke(s.sid), w.now)).sessions
    ensures s.RevokeUser? ==> DoStatement(w, s).sessions == S.Exec(scfg, Seen(w), S.Event(S.RevokeAll(s.user, s.keep), w.now)).sessions
    ensures s.RemoveUser? ==> DoStatement(w, s).sessions == S.Exec(scfg, Seen(w), S.Event(S.RemoveUser(s.user), w.now)).sessions
  {
    hide S.HashFree;
  }

  /** And to accounts: a new row when id and address are free, a status, a verified address, the placeholder,
      or the row's end. */
  lemma WritersUseAccountStatements(w: World, s: Statement)
    ensures var u := DoStatement(w, s).users;
      match s
      case AddUser(id, email, verified) =>
        u == if id !in w.userIds && forall x :: x in w.users ==> w.users[x].email != email
             then w.users[id := User(email, verified, S.Active, false, w.now)] else w.users
      case SetStatus(user, status) =>
        user in w.users ==> u == w.users[user := w.users[user].(status := status, deleted := false)]
      case VerifyEmail(user) => user in w.users ==> u == w.users[user := w.users[user].(verified := true)]
      case Anonymize(user) =>
        user in w.users && (forall x :: x in w.users && x != user ==> w.users[x].email != Placeholder(user)) ==>
          u == w.users[user := w.users[user].(email := Placeholder(user), status := S.Deleted, deleted := true)]
      case RemoveUser(user) => u == w.users - {user}
      case _ => u == w.users
  {
    hide Placeholder;
  }

  // ----- runs -----

  datatype Action =
    | Request(r: LinkRequest, allowed: bool, secret: string, stamp: int, stored: bool)
    | BeginVerify(pid: nat, token: string, tenant: Tenant)
    | BeginExchange(pid: nat, code: string, origin: Option<string>, verifier: string)
    | Continue(pid: nat, env: Env)
    | Abandon(pid: nat)
    | Tick(elapsed: nat)
    | Purge(codes: bool, before: int)
    | Other(statement: Statement)

  function DoContinue(cfg: Config, w: World, pid: nat, e: Env): World {
    if pid !in w.procs then w
    else if w.procs[pid].Exchanging? then StepExchange(w, pid, e)
    else if InAccountPhase(w.procs[pid].stage) then StepAccount(cfg, w, pid, e)
    else StepSession(cfg, w, pid, e)
  }

  predicate InAccountPhase(s: VerifyStage) {
    s.Resolve? || s.Find? || s.Insert? || s.Profile? || s.Confirm? || s.Hook? || s.Undo? || s.Refind? || s.Fetch?
  }

  /** The purge reads the clock before it deletes. */
  function DoPurge(w: World, codes: bool, before: int): World {
    if before > w.now then w
    else if codes then w.(codes := PurgeCodes(w.codes, before))
    else w.(tokens := PurgeTokens(w.tokens, before))
  }

  function Step(cfg: Config, w: World, a: Action): World {
    match a
    case Request(r, allowed, secret, stamp, stored) => DoRequest(cfg, w, r, allowed, secret, stamp, stored)
    case BeginVerify(pid, token, tenant) => DoBeginVerify(w, pid, token, tenant)
    case BeginExchange(pid, code, origin, verifier) => DoBeginExchange(cfg, w, pid, code, origin, verifier)
    case Continue(pid, env) => DoContinue(cfg, w, pid, env)
    case Abandon(pid) => End(w, pid)
    case Tick(d) => w.(now := w.now + d)
    case Purge(codes, before) => DoPurge(w, codes, before)
    case Other(s) => DoStatement(w, s)
  }

  function StepOf(cfg: Config): (World, Action) -> World {
    (w, a) => Step(cfg, w, a)
  }

  function Run(cfg: Config, run: seq<Action>): World {
    After(StepOf(cfg), START, run)
  }

  /** Carrying out `run` from the start leads to `w`. */
  ghost predicate Reached(cfg: Config, run: seq<Action>, w: World) {
    Runs.Reached(StepOf(cfg), START, run, w)
  }

  lemma ReachedIsRun(cfg: Config, run: seq<Action>, w: World)
    ensures Reached(cfg, run, w) <==> w == Run(cfg, run)
  {
    hide StepOf;
    ReachedIsAfter(StepOf(cfg), START, run, w);
  }

  lemma RunSnoc(cfg: Config, run: seq<Action>, a: Action)
    ensures Run(cfg, run + [a]) == Step(cfg, Run(cfg, run), a)
  {
    assert (run + [a])[..|run|] == run;
    hide Step;
  }
}
