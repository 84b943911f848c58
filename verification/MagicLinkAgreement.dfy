/** Each successful exchange of a run agrees with one request, and with no other exchange. */
module MagicLinkAgreement {
  import opened Prelude
  import opened Pkce
  import opened MagicLink
  import opened MagicLinkRuns
  import S = Sessions

  // ----- whose account a sign-in is about -----

  /** As long as the row exists, its address is the given one up to case, unless it was anonymized. */
  ghost predicate UserFits(w: World, u: Id, email: string) {
    u in w.userIds && (u in w.users ==> Lower(w.users[u].email) == Lower(email) || u in w.anonymized)
  }

  ghost predicate SessionFits(w: World, sid: Id, u: Id) {
    sid in w.sessionIds && (sid in w.sessions ==> w.sessions[sid].user == u)
  }

  ghost predicate StageFits(w: World, s: VerifyStage, email: string) {
    match s
    case Profile(u) => UserFits(w, u, email)
    case Confirm(u) => UserFits(w, u, email)
    case Hook(u) => UserFits(w, u, email)
    case Undo(u) => UserFits(w, u, email)
    case Fetch(u) => UserFits(w, u, email)
    case Gate(u, _) => UserFits(w, u, email)
    case RevokeOld(u) => UserFits(w, u, email)
    case MarkVerified(u) => UserFits(w, u, email)
    case Open(u) => UserFits(w, u, email)
    case AskMfa(u, sid) => UserFits(w, u, email) && SessionFits(w, sid, u)
    case FlagMfa(u, sid) => UserFits(w, u, email) && SessionFits(w, sid, u)
    case LoginHook(u, sid) => UserFits(w, u, email) && SessionFits(w, sid, u)
    case Mint(u, sid) => UserFits(w, u, email) && SessionFits(w, sid, u)
    case _ => true
  }

  ghost predicate ProcFits(w: World, p: Proc) {
    if p.Verifying? then StageFits(w, p.stage, p.rec.email)
    else p.code in w.mints && (p.step.ReadUser? ==> p.step.user == w.mints[p.code].user)
  }

  ghost predicate MintFits(w: World, m: Minted) {
    m.token in w.requests && UserFits(w, m.user, w.requests[m.token].email) && SessionFits(w, m.session, m.user)
  }

  ghost predicate ExchangeFits(w: World, x: Exchanged) {
    && x.code in w.mints && w.mints[x.code].token in w.requests && x.user == w.mints[x.code].user
    && (x.renamed ==> x.user in w.anonymized)
    && Lower(x.email) == Lower(if x.renamed then Placeholder(x.user) else w.requests[w.mints[x.code].token].email)
  }

  ghost predicate Ids(w: World) {
    && w.users.Keys <= w.userIds && w.sessions.Keys <= w.sessionIds && w.anonymized <= w.userIds
    && (forall u :: u in w.users && u in w.anonymized ==> w.users[u].email == Placeholder(u))
  }

  ghost predicate Fitting(w: World) {
    && Ids(w)
    && (forall p :: p in w.procs ==> ProcFits(w, w.procs[p]))
    && (forall c :: c in w.mints ==> MintFits(w, w.mints[c]))
    && (forall j :: 0 <= j < |w.exchanges| ==> ExchangeFits(w, w.exchanges[j]))
  }

  /** No id is used twice, sessions keep their user, and an address changes only when anonymized. */
  ghost predicate Stable(w: World, w': World) {
    && w.userIds <= w'.userIds && w.sessionIds <= w'.sessionIds && w.anonymized <= w'.anonymized
    && (forall u :: u in w'.users && u in w.userIds ==>
          u in w.users && (w'.users[u].email == w.users[u].email || u in w'.anonymized))
    && (forall s :: s in w'.sessions && s in w.sessionIds ==> s in w.sessions && w'.sessions[s].user == w.sessions[s].user)
    && (forall h :: h in w.requests ==> h in w'.requests && w'.requests[h] == w.requests[h])
    && (forall c :: c in w.mints ==> c in w'.mints && w'.mints[c] == w.mints[c])
  }

  lemma UserLasts(w: World, w': World, u: Id, email: string)
    requires Stable(w, w') && UserFits(w, u, email)
    ensures UserFits(w', u, email)
  {
  }

  lemma SessionLasts(w: World, w': World, sid: Id, u: Id)
    requires Stable(w, w') && SessionFits(w, sid, u)
    ensures SessionFits(w', sid, u)
  {
  }

  lemma StageLasts(w: World, w': World, s: VerifyStage, email: string)
    requires Stable(w, w') && StageFits(w, s, email)
    ensures StageFits(w', s, email)
  {
    forall u: Id | UserFits(w, u, email) ensures UserFits(w', u, email) {
      UserLasts(w, w', u, email);
    }
    forall sid: Id, u: Id | SessionFits(w, sid, u) ensures SessionFits(w', sid, u) {
      SessionLasts(w, w', sid, u);
    }
    hide Stable, UserFits, SessionFits;
  }

  lemma ProcLasts(w: World, w': World, p: Proc)
    requires Stable(w, w') && ProcFits(w, p)
    ensures ProcFits(w', p)
  {
    hide StageFits;
    if p.Verifying? {
      StageLasts(w, w', p.stage, p.rec.email);
    }
  }

  lemma MintLasts(w: World, w': World, m: Minted)
    requires Stable(w, w') && MintFits(w, m)
    ensures MintFits(w', m)
  {
  }

  lemma ExchangeLasts(w: World, w': World, x: Exchanged)
    requires Stable(w, w') && ExchangeFits(w, x)
    ensures ExchangeFits(w', x)
  {
  }

  /** A step of process `pid`, or of nobody: everything else stays, and what is new fits. */
  ghost predicate Evolves(w: World, w': World, pid: nat) {
    && Ids(w') && Stable(w, w')
    && (forall p :: p in w'.procs && p != pid ==> p in w.procs && w'.procs[p] == w.procs[p])
    && (pid in w'.procs ==> (pid in w.procs && w'.procs[pid] == w.procs[pid]) || ProcFits(w', w'.procs[pid]))
    && (forall c :: c in w'.mints ==> c in w.mints || MintFits(w', w'.mints[c]))
    && (w'.exchanges == w.exchanges
        || (|w'.exchanges| == |w.exchanges| + 1 && w'.exchanges[..|w.exchanges|] == w.exchanges
            && ExchangeFits(w', w'.exchanges[|w.exchanges|])))
  }

  lemma EvolvesKeepsProcs(w: World, w': World, pid: nat)
    requires Fitting(w) && Evolves(w, w', pid)
    ensures forall p :: p in w'.procs ==> ProcFits(w', w'.procs[p])
  {
    hide Stable, ProcFits, MintFits, ExchangeFits, Ids;
    forall p | p in w'.procs ensures ProcFits(w', w'.procs[p]) {
      if p in w.procs && w'.procs[p] == w.procs[p] {
        ProcLasts(w, w', w.procs[p]);
      }
    }
  }

  lemma EvolvesKeepsMints(w: World, w': World, pid: nat)
    requires Fitting(w) && Evolves(w, w', pid)
    ensures forall c :: c in w'.mints ==> MintFits(w', w'.mints[c])
  {
    hide ProcFits, MintFits, ExchangeFits, Ids;
    forall c | c in w'.mints ensures MintFits(w', w'.mints[c]) {
      if c in w.mints {
        MintLasts(w, w', w.mints[c]);
      }
    }
  }

  lemma EvolvesKeepsExchanges(w: World, w': World, pid: nat)
    requires Fitting(w) && Evolves(w, w', pid)
    ensures forall j :: 0 <= j < |w'.exchanges| ==> ExchangeFits(w', w'.exchanges[j])
  {
    hide Stable, ProcFits, MintFits, ExchangeFits, Ids;
    forall j | 0 <= j < |w'.exchanges| ensures ExchangeFits(w', w'.exchanges[j]) {
      if j < |w.exchanges| {
        assert w'.exchanges[j] == w'.exchanges[..|w.exchanges|][j];
        ExchangeLasts(w, w', w.exchanges[j]);
      }
    }
  }

  lemma EvolvesKeepsFitting(w: World, w': World, pid: nat)
    requires Fitting(w) && Evolves(w, w', pid)
    ensures Fitting(w')
  {
    EvolvesKeepsProcs(w, w', pid);
    EvolvesKeepsMints(w, w', pid);
    EvolvesKeepsExchanges(w, w', pid);
    hide Stable, ProcFits, MintFits, ExchangeFits;
  }

  // ----- steps of a verify -----

  /** Only users and sessions change, and rows of tokens and codes may go. */
  ghost predicate TablesOnly(w: World, w1: World) {
    && w1.requests == w.requests && w1.mints == w.mints && w1.exchanges == w.exchanges && w1.uses == w.uses
    && w1.procs == w.procs && w1.tokens == w.tokens && w.secrets <= w1.secrets && w1.now == w.now
    && (forall c :: c in w1.codes ==> c in w.codes && w1.codes[c] == w.codes[c])
  }

  lemma MoveIsQuiet(w: World, w1: World, pid: nat, s: VerifyStage)
    requires TablesOnly(w, w1) && pid in w.procs && w.procs[pid].Verifying?
    ensures Quiet(w, Goto(w1, pid, s)) && Quiet(w, End(w1, pid))
  {
  }

  /** Moving processes about changes nothing the predicates above look at. */
  lemma StableThrough(w: World, w1: World, w2: World)
    requires Stable(w, w1) && w2 == w1.(procs := w2.procs)
    ensures Stable(w, w2) && Stable(w1, w2)
  {
  }

  lemma MoveEvolves(w: World, w1: World, pid: nat, s: VerifyStage)
    requires TablesOnly(w, w1) && pid in w.procs && w.procs[pid].Verifying? && Ids(w1) && Stable(w, w1)
    ensures Evolves(w, End(w1, pid), pid)
    ensures StageFits(w1, s, w.procs[pid].rec.email) ==> Evolves(w, Goto(w1, pid, s), pid)
  {
    StableThrough(w, w1, End(w1, pid));
    StableThrough(w, w1, Goto(w1, pid, s));
    if StageFits(w1, s, w.procs[pid].rec.email) {
      StageLasts(w1, Goto(w1, pid, s), s, w.procs[pid].rec.email);
    }
    hide Stable, StageFits, MintFits, ExchangeFits;
  }

  ghost predicate Moves(w: World, w': World, pid: nat) {
    Quiet(w, w') && Evolves(w, w', pid)
  }

  ghost predicate Tables(w: World, w1: World) {
    TablesOnly(w, w1) && Ids(w1) && Stable(w, w1)
  }

  lemma EndMoves(w: World, w1: World, pid: nat)
    requires Tables(w, w1) && pid in w.procs && w.procs[pid].Verifying?
    ensures Moves(w, End(w1, pid), pid)
  {
    MoveIsQuiet(w, w1, pid, Resolve);
    MoveEvolves(w, w1, pid, Resolve);
    hide TablesOnly, Ids, Stable, Quiet, Evolves;
  }

  lemma GotoMoves(w: World, w1: World, pid: nat, s: VerifyStage)
    requires Tables(w, w1) && pid in w.procs && w.procs[pid].Verifying? && StageFits(w1, s, w.procs[pid].rec.email)
    ensures Moves(w, Goto(w1, pid, s), pid)
  {
    MoveIsQuiet(w, w1, pid, s);
    MoveEvolves(w, w1, pid, s);
    hide TablesOnly, Ids, Stable, Quiet, Evolves, StageFits;
  }

  lemma NothingChanged(w: World, pid: nat)
    requires Ids(w)
    ensures Tables(w, w) && Moves(w, w, pid)
  {
  }

  /** Rewriting one user row without its address. */
  lemma UsersOnly(w: World, u: Id, row: User)
    requires Ids(w) && u in w.users && row.email == w.users[u].email
    ensures Tables(w, w.(users := w.users[u := row]))
  {
  }

  lemma VerifiedTables(w: World, u: Id)
    requires Ids(w)
    ensures Tables(w, Verified(w, u))
  {
    if u in w.users {
      UsersOnly(w, u, w.users[u].(verified := true));
    }
  }

  lemma DeletedTables(w: World, u: Id)
    requires Ids(w)
    ensures Tables(w, DeleteUser(w, u))
  {
  }

  function WithUser(w: World, u: Id, email: string): World {
    w.(users := w.users[u := User(email, false, S.Active, false, w.now)], userIds := w.userIds + {u})
  }

  lemma NewUserTables(w: World, u: Id, email: string)
    requires Ids(w) && u !in w.userIds
    ensures Tables(w, WithUser(w, u, email)) && UserFits(WithUser(w, u, email), u, email)
  {
  }

  lemma FoundMoves(w: World, pid: nat, u: Id)
    requires Ids(w) && pid in w.procs && w.procs[pid].Verifying? && Matching(w.users, w.procs[pid].rec.email, u)
    ensures Moves(w, Found(w, pid, u), pid)
  {
    assert UserFits(w, u, w.procs[pid].rec.email);
    hide Moves, Tables, UserFits, Ids;
    NothingChanged(w, pid);
    if w.users[u].status != S.Active {
      EndMoves(w, w, pid);
    } else {
      GotoMoves(w, w, pid, Gate(u, w.users[u].verified));
    }
  }

  lemma DestinationMoves(cfg: Config, w: World, w1: World, pid: nat, u: Id)
    requires Tables(w, w1) && pid in w.procs && w.procs[pid].Verifying? && w1.procs == w.procs
    requires UserFits(w1, u, w.procs[pid].rec.email)
    ensures Moves(w, ChooseDestination(cfg, w1, pid, u), pid)
  {
    hide Moves, Tables, UserFits, Destination;
    EndMoves(w, w1, pid);
    GotoMoves(w, w1, pid, Open(u));
  }

  /** A lookup that found the account also moves on as above; the rest of the account phase. */
  lemma AccountMoves(cfg: Config, w: World, pid: nat, e: Env)
    requires Ids(w) && pid in w.procs && w.procs[pid].Verifying? && InAccountPhase(w.procs[pid].stage)
    requires StageFits(w, w.procs[pid].stage, w.procs[pid].rec.email)
    ensures Moves(w, StepAccount(cfg, w, pid, e), pid)
  {
    hide Moves, Tables, UserFits, Ids, Oldest, NoMatch, EmailTaken, DeleteUser, Verified, Found, ChooseDestination;
    var p := w.procs[pid];
    NothingChanged(w, pid);
    EndMoves(w, w, pid);
    match p.stage
    case Resolve => GotoMoves(w, w, pid, Find);
    case Find =>
      GotoMoves(w, w, pid, Insert);
      if Oldest(w.users, p.rec.email, e.id) {
        OldestMatches(w.users, p.rec.email, e.id);
        FoundMoves(w, pid, e.id);
      }
    case Insert =>
      GotoMoves(w, w, pid, Refind);
      if e.id !in w.userIds {
        NewUserTables(w, e.id, p.rec.email);
        GotoMoves(w, WithUser(w, e.id, p.rec.email), pid, Profile(e.id));
      }
    case Profile(u) => GotoMoves(w, w, pid, if e.fails then Undo(u) else Confirm(u));
    case Confirm(u) => ConfirmMoves(w, pid, u, e.fails);
    case Hook(u) => GotoMoves(w, w, pid, if e.fails then Undo(u) else Fetch(u));
    case Undo(u) =>
      DeletedTables(w, u);
      GotoMoves(w, DeleteUser(w, u), pid, Refind);
    case Refind =>
      if Oldest(w.users, p.rec.email, e.id) {
        OldestMatches(w.users, p.rec.email, e.id);
        FoundMoves(w, pid, e.id);
      }
    case Fetch(u) => DestinationMoves(cfg, w, w, pid, u);
  }

  lemma OldestMatches(users: map<Id, User>, email: string, u: Id)
    requires Oldest(users, email, u)
    ensures Matching(users, email, u)
  {
  }

  lemma TablesSteady(w: World, w1: World, u: Id, email: string)
    requires Tables(w, w1) && UserFits(w, u, email)
    ensures UserFits(w1, u, email)
  {
    hide TablesOnly, Ids;
    UserLasts(w, w1, u, email);
  }

  lemma ConfirmMoves(w: World, pid: nat, u: Id, fails: bool)
    requires Ids(w) && pid in w.procs && w.procs[pid].Verifying? && UserFits(w, u, w.procs[pid].rec.email)
    ensures Moves(w, Goto(if fails then w else Verified(w, u), pid, Hook(u)), pid)
  {
    hide Moves, Tables, UserFits, Ids, Verified;
    NothingChanged(w, pid);
    VerifiedTables(w, u);
    TablesSteady(w, Verified(w, u), u, w.procs[pid].rec.email);
    GotoMoves(w, if fails then w else Verified(w, u), pid, Hook(u));
  }

  /** Session statements that keep every row's user. */
  lemma SessionsOnly(w: World, t: S.Table)
    requires Ids(w) && t.Keys <= w.sessions.Keys && forall s :: s in t ==> t[s].user == w.sessions[s].user
    ensures Tables(w, w.(sessions := t))
  {
  }

  lemma RevokeKeepsUsers(t: S.Table, u: Id, keep: Option<Id>, sid: Id)
    ensures S.RevokeForUser(t, u, keep).Keys == t.Keys && S.RevokeById(t, sid).Keys == t.Keys
    ensures S.SetMfaPending(t, sid, true).Keys == t.Keys
    ensures forall s :: s in t ==> S.RevokeForUser(t, u, keep)[s].user == t[s].user
    ensures forall s :: s in t ==> S.RevokeById(t, sid)[s].user == t[s].user && S.SetMfaPending(t, sid, true)[s].user == t[s].user
  {
  }

  function WithSession(w: World, u: Id, e: Env): World {
    w.(sessions := w.sessions[e.id := S.Session(u, Sha256(e.secret), e.stamp, e.expiresAt, e.stamp, false, false, e.yes)],
       sessionIds := w.sessionIds + {e.id}, secrets := w.secrets + {e.secret})
  }

  lemma NewSessionTables(w: World, u: Id, e: Env)
    requires Ids(w) && e.id !in w.sessionIds
    ensures Tables(w, WithSession(w, u, e)) && SessionFits(WithSession(w, u, e), e.id, u)
  {
  }

  lemma OpenMoves(w: World, pid: nat, u: Id, e: Env)
    requires Ids(w) && pid in w.procs && w.procs[pid].Verifying? && UserFits(w, u, w.procs[pid].rec.email)
    ensures Moves(w, OpenSession(w, pid, u, e), pid)
  {
    hide Moves, Tables, UserFits, SessionFits, Ids;
    NothingChanged(w, pid);
    EndMoves(w, w, pid);
    if e.id !in w.sessionIds {
      NewSessionTables(w, u, e);
      TablesSteady(w, WithSession(w, u, e), u, w.procs[pid].rec.email);
      GotoMoves(w, WithSession(w, u, e), pid, AskMfa(u, e.id));
    }
  }

  lemma FlagMoves(w: World, pid: nat, u: Id, sid: Id)
    requires Ids(w) && pid in w.procs && w.procs[pid].Verifying?
    requires UserFits(w, u, w.procs[pid].rec.email) && SessionFits(w, sid, u)
    ensures Moves(w, Goto(w.(sessions := S.SetMfaPending(w.sessions, sid, true)), pid, Mint(u, sid)), pid)
  {
    var w1 := w.(sessions := S.SetMfaPending(w.sessions, sid, true));
    RevokeKeepsUsers(w.sessions, u, None, sid);
    SessionsOnly(w, w1.sessions);
    TablesSteady(w, w1, u, w.procs[pid].rec.email);
    assert SessionFits(w1, sid, u);
    hide Moves, Tables, UserFits, SessionFits, Ids;
    GotoMoves(w, w1, pid, Mint(u, sid));
  }

  lemma RevokeMoves(cfg: Config, w: World, pid: nat, u: Id)
    requires Ids(w) && pid in w.procs && w.procs[pid].Verifying? && UserFits(w, u, w.procs[pid].rec.email)
    ensures Moves(w, Goto(w.(sessions := S.RevokeForUser(w.sessions, u, None)), pid, MarkVerified(u)), pid)
    ensures Moves(w, ChooseDestination(cfg, Verified(w, u), pid, u), pid)
  {
    hide Moves, Tables, UserFits, Ids, Verified, ChooseDestination;
    var w1 := w.(sessions := S.RevokeForUser(w.sessions, u, None));
    RevokeKeepsUsers(w.sessions, u, None, 0);
    SessionsOnly(w, w1.sessions);
    TablesSteady(w, w1, u, w.procs[pid].rec.email);
    GotoMoves(w, w1, pid, MarkVerified(u));
    VerifiedTables(w, u);
    TablesSteady(w, Verified(w, u), u, w.procs[pid].rec.email);
    VerifiedProcs(w, u);
    DestinationMoves(cfg, w, Verified(w, u), pid, u);
  }

  lemma VerifiedProcs(w: World, u: Id)
    ensures Verified(w, u).procs == w.procs
  {
  }

  /** Everything between the guards and the minting of the code. */
  lemma SessionMoves(cfg: Config, w: World, pid: nat, e: Env)
    requires Ids(w) && pid in w.procs && w.procs[pid].Verifying?
    requires StageFits(w, w.procs[pid].stage, w.procs[pid].rec.email) && !w.procs[pid].stage.Mint?
    ensures Moves(w, StepSession(cfg, w, pid, e), pid)
  {
    hide Moves, Tables, UserFits, SessionFits, Ids, Verified, ChooseDestination, OpenSession;
    hide S.RevokeForUser, S.SetMfaPending, S.RevokeById;
    var p := w.procs[pid];
    NothingChanged(w, pid);
    EndMoves(w, w, pid);
    match p.stage
    case Gate(u, verified) =>
      GotoMoves(w, w, pid, RevokeOld(u));
      DestinationMoves(cfg, w, w, pid, u);
    case RevokeOld(u) => RevokeMoves(cfg, w, pid, u);
    case MarkVerified(u) => RevokeMoves(cfg, w, pid, u);
    case Open(u) => OpenMoves(w, pid, u, e);
    case AskMfa(u, sid) => GotoMoves(w, w, pid, if !e.fails && e.yes then FlagMfa(u, sid) else LoginHook(u, sid));
    case FlagMfa(u, sid) => FlagMoves(w, pid, u, sid);
    case LoginHook(u, sid) => GotoMoves(w, w, pid, if e.fails then DropSession(sid) else Mint(u, sid));
    case DropSession(sid) =>
      RevokeKeepsUsers(w.sessions, 0, None, sid);
      SessionsOnly(w, S.RevokeById(w.sessions, sid));
      EndMoves(w, w.(sessions := S.RevokeById(w.sessions, sid)), pid);
    case _ =>
  }

  // ----- minting -----

  function MintRecord(cfg: Config, w: World, pid: nat, u: Id, sid: Id, e: Env): Minted
    requires pid in w.procs && w.procs[pid].Verifying?
  {
    var p := w.procs[pid];
    var dest := Destination(cfg, p.rec.redirect);
    var origin := if dest.Some? && dest.value.origin.Some? then dest.value.origin.value else "";
    Minted(p.token, sid, u, p.rec.org, p.rec.challenge, origin, e.stamp, w.now)
  }

  function MintRow(m: Minted): Code {
    Code(m.session, m.org, m.origin, m.challenge, m.stamp, m.stamp + MAGIC_LINK_CODE_TTL, false)
  }

  /** Either the code is stored and recorded, or the session is dropped. */
  lemma MintOutcome(cfg: Config, w: World, pid: nat, u: Id, sid: Id, e: Env)
    requires pid in w.procs && w.procs[pid].Verifying?
    ensures var w' := MintCode(cfg, w, pid, u, sid, e); var m := MintRecord(cfg, w, pid, u, sid, e);
      w' == Goto(w, pid, DropSession(sid))
      || (Mints(cfg, w, w', pid, Sha256(e.secret), MintRow(m), m)
          && w' == w.(codes := w'.codes, mints := w'.mints, procs := w'.procs, secrets := w'.secrets))
  {
    hide IsCodeChallenge, Destination;
  }

  lemma MintEvolves(cfg: Config, w: World, w': World, pid: nat, c: Digest, row: Code, m: Minted)
    requires Mints(cfg, w, w', pid, c, row, m) && c !in w.mints && Fitting(w)
    requires w' == w.(codes := w'.codes, mints := w'.mints, procs := w'.procs, secrets := w'.secrets)
    requires m.token in w.requests && UserFits(w, m.user, w.requests[m.token].email) && SessionFits(w, m.session, m.user)
    ensures Evolves(w, w', pid)
  {
    hide Destination, ProcFits, ExchangeFits;
    assert Stable(w, w');
    assert MintFits(w', m);
  }

  /** What the minting verify knows about its request, user and session. */
  lemma MinterFits(cfg: Config, w: World, pid: nat)
    requires ProcsGood(cfg, w) && Fitting(w) && pid in w.procs && w.procs[pid].Verifying? && w.procs[pid].stage.Mint?
    ensures var p := w.procs[pid];
      && p.token in w.requests && Ids(w)
      && UserFits(w, p.stage.user, w.requests[p.token].email) && SessionFits(w, p.stage.sid, p.stage.user)
  {
    assert ProcFits(w, w.procs[pid]) && VerifierGood(cfg, w, w.procs[pid]);
  }

  lemma MintIsNew(cfg: Config, w: World, w': World, pid: nat, c: Digest, m: Minted)
    requires Known(w) && Mints(cfg, w, w', pid, c, MintRow(m), m)
    ensures c !in w.mints
  {
  }

  lemma MintStored(cfg: Config, w: World, w': World, pid: nat, c: Digest, m: Minted)
    requires Protocol(cfg, w) && Fitting(w) && Mints(cfg, w, w', pid, c, MintRow(m), m) && c !in w.mints
    requires w' == w.(codes := w'.codes, mints := w'.mints, procs := w'.procs, secrets := w'.secrets)
    requires m.token in w.requests && UserFits(w, m.user, w.requests[m.token].email) && SessionFits(w, m.session, m.user)
    ensures Protocol(cfg, w') && Fitting(w')
  {
    hide Protocol, Fitting, Mints, UserFits, SessionFits, Evolves;
    MintEvolves(cfg, w, w', pid, c, MintRow(m), m);
    MintKeepsProtocol(cfg, w, w', pid, c, MintRow(m), m);
    EvolvesKeepsFitting(w, w', pid);
  }

  lemma MintDropped(cfg: Config, w: World, pid: nat, sid: Id)
    requires Protocol(cfg, w) && Fitting(w) && Ids(w) && pid in w.procs && w.procs[pid].Verifying?
    ensures Protocol(cfg, Goto(w, pid, DropSession(sid))) && Fitting(Goto(w, pid, DropSession(sid)))
  {
    hide Protocol, Fitting, Moves, Tables, Ids;
    NothingChanged(w, pid);
    GotoMoves(w, w, pid, DropSession(sid));
    MovesKeep(cfg, w, Goto(w, pid, DropSession(sid)), pid);
  }

  lemma MintStepKeeps(cfg: Config, w: World, pid: nat, u: Id, sid: Id, e: Env)
    requires Protocol(cfg, w) && Known(w) && ProcsGood(cfg, w) && Fitting(w)
    requires pid in w.procs && w.procs[pid].Verifying? && w.procs[pid].stage == Mint(u, sid)
    ensures Protocol(cfg, MintCode(cfg, w, pid, u, sid, e)) && Fitting(MintCode(cfg, w, pid, u, sid, e))
  {
    hide Protocol, Known, ProcsGood, Fitting, UserFits, SessionFits, Mints, MintCode, Goto, Ids;
    var w' := MintCode(cfg, w, pid, u, sid, e);
    var m := MintRecord(cfg, w, pid, u, sid, e);
    MinterFits(cfg, w, pid);
    MintOutcome(cfg, w, pid, u, sid, e);
    if w' == Goto(w, pid, DropSession(sid)) {
      MintDropped(cfg, w, pid, sid);
    } else {
      MintIsNew(cfg, w, w', pid, Sha256(e.secret), m);
      MintStored(cfg, w, w', pid, Sha256(e.secret), m);
    }
  }

  lemma MovesKeep(cfg: Config, w: World, w': World, pid: nat)
    requires Protocol(cfg, w) && Fitting(w) && Moves(w, w', pid)
    ensures Protocol(cfg, w') && Fitting(w')
  {
    hide Protocol, Fitting, Quiet, Evolves;
    QuietKeepsProtocol(cfg, w, w');
    EvolvesKeepsFitting(w, w', pid);
  }

  // ----- exchange -----

  ghost predicate SameSave(w: World, w': World) {
    w' == w.(sessions := w'.sessions, secrets := w'.secrets, procs := w'.procs)
  }

  /** The session behind the code belongs to the user the code was minted for. */
  lemma ExchangerFits(cfg: Config, w: World, pid: nat)
    requires ProcsGood(cfg, w) && Fitting(w) && pid in w.procs && w.procs[pid].Exchanging?
    ensures var x := w.procs[pid];
      && x.code in w.mints && w.mints[x.code].token in w.requests && Ids(w) && ProcFits(w, x)
      && (x.row.session in w.sessions ==> w.sessions[x.row.session].user == w.mints[x.code].user)
      && UserFits(w, w.mints[x.code].user, w.requests[w.mints[x.code].token].email)
  {
    var x := w.procs[pid];
    assert ExchangerGood(cfg, w, x) && ProcFits(w, x);
    assert MintFits(w, w.mints[x.code]);
    hide Proved, FromRequest, IsCodeVerifier;
  }

  lemma IssueKeepsUsers(t: S.Table, sid: Id, h: Digest, expires: int, now: int)
    ensures S.IssueToken(t, sid, h, now).Some? ==>
      SameUsers(t, S.IssueToken(t, sid, h, now).value)
    ensures S.RotateToken(t, sid, h, expires, now).Some? ==>
      SameUsers(t, S.RotateToken(t, sid, h, expires, now).value)
    ensures SameUsers(t, S.RevokeById(t, sid))
  {
  }

  ghost predicate SameUsers(t: S.Table, t': S.Table) {
    t'.Keys == t.Keys && forall s :: s in t ==> t'[s].user == t[s].user
  }

  /** Steps of an exchange before its completion. */
  lemma ExchangeStepMoves(w: World, w': World, pid: nat)
    requires Ids(w) && pid in w.procs && w.procs[pid].Exchanging? && w.procs[pid].code in w.mints
    requires SameSave(w, w') && SameUsers(w.sessions, w'.sessions) && w.secrets <= w'.secrets
    requires w'.procs == w.procs - {pid}
      || (pid in w'.procs && w'.procs == w.procs[pid := w'.procs[pid]] && SameOwner(w.procs[pid], w'.procs[pid]) && ProcFits(w', w'.procs[pid]))
    ensures Moves(w, w', pid)
  {
    assert Quiet(w, w');
    assert Stable(w, w');
    hide Stable, Quiet, ProcFits, MintFits, ExchangeFits;
  }

  lemma IssueMoves(w: World, pid: nat, e: Env)
    requires Ids(w) && pid in w.procs && w.procs[pid].Exchanging? && w.procs[pid].code in w.mints && w.procs[pid].step.Issue?
    requires var x := w.procs[pid]; x.row.session in w.sessions ==> w.sessions[x.row.session].user == w.mints[x.code].user
    ensures Moves(w, StepExchange(w, pid, e), pid)
  {
    hide Moves, Ids, S.HashFree, S.IssueToken;
    IssueKeepsUsers(w.sessions, w.procs[pid].row.session, Sha256(e.secret), 0, w.now);
    ExchangeStepMoves(w, StepExchange(w, pid, e), pid);
  }

  lemma RefusalMoves(w: World, pid: nat)
    requires Ids(w) && pid in w.procs && w.procs[pid].Exchanging? && w.procs[pid].code in w.mints
    ensures Moves(w, w.(procs := w.procs[pid := w.procs[pid].(step := DropIssued)]), pid)
  {
    hide Moves, Ids;
    ExchangeStepMoves(w, w.(procs := w.procs[pid := w.procs[pid].(step := DropIssued)]), pid);
  }

  lemma DropMoves(w: World, pid: nat, e: Env)
    requires Ids(w) && pid in w.procs && w.procs[pid].Exchanging? && w.procs[pid].code in w.mints && w.procs[pid].step.DropIssued?
    ensures Moves(w, StepExchange(w, pid, e), pid)
  {
    hide Moves, Ids, S.RevokeById;
    IssueKeepsUsers(w.sessions, w.procs[pid].row.session, Sha256(""), 0, w.now);
    ExchangeStepMoves(w, StepExchange(w, pid, e), pid);
  }

  lemma ReadUserOutcome(w: World, pid: nat, e: Env)
    requires pid in w.procs && w.procs[pid].Exchanging? && w.procs[pid].step.ReadUser?
    requires StepExchange(w, pid, e).exchanges == w.exchanges
    ensures StepExchange(w, pid, e) == w.(procs := w.procs[pid := w.procs[pid].(step := DropIssued)])
  {
    assert forall x: Exchanged :: |w.exchanges + [x]| != |w.exchanges|;
  }

  lemma OnlyReadUserCompletes(w: World, pid: nat, e: Env)
    requires pid in w.procs && w.procs[pid].Exchanging? && StepExchange(w, pid, e).exchanges != w.exchanges
    ensures w.procs[pid].step.ReadUser?
  {
    hide S.Live, S.IssueToken, S.RevokeById;
    match w.procs[pid].step
    case Issue => IssueCompletesNothing(w, pid, e);
    case DropIssued => DropCompletesNothing(w, pid, e);
    case ReadUser(_) =>
  }

  lemma IssueCompletesNothing(w: World, pid: nat, e: Env)
    requires pid in w.procs && w.procs[pid].Exchanging? && w.procs[pid].step.Issue?
    ensures StepExchange(w, pid, e).exchanges == w.exchanges
  {
    hide S.Live, S.IssueToken;
  }

  lemma DropCompletesNothing(w: World, pid: nat, e: Env)
    requires pid in w.procs && w.procs[pid].Exchanging? && w.procs[pid].step.DropIssued?
    ensures StepExchange(w, pid, e).exchanges == w.exchanges
  {
    hide S.RevokeById;
  }

  lemma CompletionOutcome(w: World, pid: nat, e: Env)
    requires pid in w.procs && w.procs[pid].Exchanging? && StepExchange(w, pid, e).exchanges != w.exchanges
    ensures var w' := StepExchange(w, pid, e); var x := w.procs[pid];
      && x.step.ReadUser? && x.step.user in w.users
      && Completes(w, w', pid, Exchanged(x.code, x.step.user, w.users[x.step.user].email, x.row.org, x.verifier, x.origin, x.at, x.step.user in w.anonymized))
      && w' == w.(exchanges := w'.exchanges, procs := w'.procs)
  {
    OnlyReadUserCompletes(w, pid, e);
  }

  lemma CompletionEvolves(w: World, w': World, pid: nat, x: Exchanged)
    requires Fitting(w) && Completes(w, w', pid, x) && w' == w.(exchanges := w'.exchanges, procs := w'.procs)
    requires ProcFits(w, w.procs[pid]) && w.procs[pid].step.ReadUser? && w.procs[pid].step.user == x.user
    requires w.mints[x.code].token in w.requests
    requires UserFits(w, x.user, w.requests[w.mints[x.code].token].email)
    requires x.user in w.users && x.email == w.users[x.user].email && x.renamed == (x.user in w.anonymized)
    ensures Evolves(w, w', pid)
  {
    assert Stable(w, w');
    assert ExchangeFits(w', x);
    hide Stable, ProcFits, MintFits, ExchangeFits, UserFits;
  }

  lemma ExchangeStepKeeps(cfg: Config, w: World, pid: nat, e: Env)
    requires Protocol(cfg, w) && ProcsGood(cfg, w) && Fitting(w) && pid in w.procs && w.procs[pid].Exchanging?
    ensures Protocol(cfg, StepExchange(w, pid, e)) && Fitting(StepExchange(w, pid, e))
  {
    hide Protocol, ProcsGood, Fitting, Moves, UserFits, Ids, Completes, StepExchange, Evolves;
    var w' := StepExchange(w, pid, e);
    ExchangerFits(cfg, w, pid);
    if w'.exchanges == w.exchanges {
      if w.procs[pid].step.Issue? {
        IssueMoves(w, pid, e);
      } else if w.procs[pid].step.ReadUser? {
        ReadUserOutcome(w, pid, e);
        RefusalMoves(w, pid);
      } else {
        DropMoves(w, pid, e);
      }
      MovesKeep(cfg, w, w', pid);
    } else {
      var p := w.procs[pid];
      CompletionOutcome(w, pid, e);
      var x := Exchanged(p.code, p.step.user, w.users[p.step.user].email, p.row.org, p.verifier, p.origin, p.at, p.step.user in w.anonymized);
      CompletionEvolves(w, w', pid, x);
      CompletionKeepsProtocol(cfg, w, w', pid, x);
      EvolvesKeepsFitting(w, w', pid);
    }
  }

  // ----- everyone else -----

  /** A change of users and sessions alone moves no process; the choice of `pid` does not matter. */
  lemma TablesMove(w: World, w1: World)
    requires Tables(w, w1)
    ensures Moves(w, w1, 0)
  {
    hide Stable, Ids, ProcFits, MintFits, ExchangeFits;
    assert Quiet(w, w1);
  }

  lemma ReplacedTokenTables(w: World, t: S.Table, secret: string)
    requires Ids(w) && SameUsers(w.sessions, t)
    ensures Tables(w, w.(sessions := t)) && Tables(w, w.(sessions := t, secrets := w.secrets + {secret}))
  {
  }

  lemma AnonymizedTables(w: World, u: Id, row: User)
    requires Ids(w) && u in w.users && row.email == Placeholder(u)
    ensures Tables(w, w.(users := w.users[u := row], anonymized := w.anonymized + {u}))
  {
  }

  lemma AddedUserTables(w: World, u: Id, row: User)
    requires Ids(w) && u !in w.userIds
    ensures Tables(w, w.(users := w.users[u := row], userIds := w.userIds + {u}))
  {
  }

  lemma AddedSessionTables(w: World, sid: Id, row: S.Session, secret: string)
    requires Ids(w) && sid !in w.sessionIds
    ensures Tables(w, w.(sessions := w.sessions[sid := row], sessionIds := w.sessionIds + {sid}, secrets := w.secrets + {secret}))
  {
  }

  lemma RevokeAllKeepsUsers(t: S.Table, u: Id, keep: Option<Id>)
    ensures SameUsers(t, S.RevokeForUser(t, u, keep))
  {
  }

  lemma SessionStatementTables(w: World, s: Statement)
    requires Ids(w) && (s.Rotate? || s.Revoke? || s.RevokeUser?)
    ensures Tables(w, DoStatement(w, s))
  {
    hide Tables, Ids, SameUsers, S.RotateToken, S.RevokeById, S.RevokeForUser;
    NothingChanged(w, 0);
    match s
    case Rotate(sid, secret, expires) =>
      IssueKeepsUsers(w.sessions, sid, Sha256(secret), expires, w.now);
      if S.RotateToken(w.sessions, sid, Sha256(secret), expires, w.now).Some? {
        ReplacedTokenTables(w, S.RotateToken(w.sessions, sid, Sha256(secret), expires, w.now).value, secret);
      }
    case Revoke(sid) =>
      IssueKeepsUsers(w.sessions, sid, Sha256(""), 0, w.now);
      ReplacedTokenTables(w, S.RevokeById(w.sessions, sid), "");
    case RevokeUser(u, keep) =>
      RevokeAllKeepsUsers(w.sessions, u, keep);
      ReplacedTokenTables(w, S.RevokeForUser(w.sessions, u, keep), "");
  }

  lemma StatementTables(w: World, s: Statement)
    requires Ids(w)
    ensures Tables(w, DoStatement(w, s))
  {
    hide Tables, Ids, Verified, DeleteUser, EmailTaken, S.HashFree;
    NothingChanged(w, 0);
    match s
    case AddUser(id, email, verified) =>
      if id !in w.userIds { AddedUserTables(w, id, User(email, verified, S.Active, false, w.now)); }
    case AddSession(sid, u, secret, expires) =>
      if sid !in w.sessionIds {
        AddedSessionTables(w, sid, S.Session(u, Sha256(secret), w.now, expires, w.now, false, false, false), secret);
      }
    case SetStatus(u, status) =>
      if u in w.users { UsersOnly(w, u, w.users[u].(status := status, deleted := false)); }
    case VerifyEmail(u) => VerifiedTables(w, u);
    case Anonymize(u) =>
      if u in w.users {
        AnonymizedTables(w, u, w.users[u].(email := Placeholder(u), status := S.Deleted, deleted := true));
      }
    case RemoveUser(u) => DeletedTables(w, u);
    case _ => SessionStatementTables(w, s);
  }

  /** The clock, the purge and a process that stops. */
  lemma IdleMoves(w: World, w': World)
    requires Ids(w) && w' == w.(now := w'.now, tokens := w'.tokens, codes := w'.codes, procs := w'.procs) && w.now <= w'.now
    requires forall h :: h in w'.tokens ==> h in w.tokens && w'.tokens[h] == w.tokens[h]
    requires forall c :: c in w'.codes ==> c in w.codes && w'.codes[c] == w.codes[c]
    requires forall p :: p in w'.procs ==> p in w.procs && w'.procs[p] == w.procs[p]
    ensures Moves(w, w', 0)
  {
    assert Quiet(w, w');
    assert Stable(w, w');
    hide Stable, Quiet, ProcFits, MintFits, ExchangeFits;
  }

  /** The steps that start something: they add a good process or request and touch no user or session. */
  lemma StartEvolves(w: World, w': World, pid: nat)
    requires Fitting(w) && w' == w.(tokens := w'.tokens, codes := w'.codes, requests := w'.requests, secrets := w'.secrets,
                                    procs := w'.procs, uses := w'.uses)
    requires forall h :: h in w.requests ==> h in w'.requests && w'.requests[h] == w.requests[h]
    requires w'.procs == w.procs || (pid in w'.procs && w'.procs == w.procs[pid := w'.procs[pid]] && ProcFits(w', w'.procs[pid]))
    ensures Fitting(w')
  {
    assert Stable(w, w') && Ids(w');
    assert Evolves(w, w', pid) by {
      hide Fitting, Stable, ProcFits, MintFits, ExchangeFits, Ids;
    }
    hide Fitting, Evolves;
    EvolvesKeepsFitting(w, w', pid);
  }

  lemma RequestKeeps(cfg: Config, w: World, r: LinkRequest, allowed: bool, secret: string, stamp: int, stored: bool)
    requires Protocol(cfg, w) && Known(w) && Fitting(w)
    ensures Protocol(cfg, DoRequest(cfg, w, r, allowed, secret, stamp, stored))
    ensures Fitting(DoRequest(cfg, w, r, allowed, secret, stamp, stored))
  {
    hide Protocol, Fitting, Acceptable, Normalize;
    RequestKeepsProtocol(cfg, w, r, allowed, secret, stamp, stored);
    StartEvolves(w, DoRequest(cfg, w, r, allowed, secret, stamp, stored), 0);
  }

  lemma BeginVerifyKeeps(cfg: Config, w: World, pid: nat, token: string, tenant: Tenant)
    requires Protocol(cfg, w) && Fitting(w)
    ensures Protocol(cfg, DoBeginVerify(w, pid, token, tenant)) && Fitting(DoBeginVerify(w, pid, token, tenant))
  {
    hide Protocol, Fitting, TokenShape, Trim;
    var w' := DoBeginVerify(w, pid, token, tenant);
    var h := Sha256(Trim(token));
    if pid !in w.procs && TokenShape(Trim(token)) && !tenant.UnknownTenant? && TokenMatches(w.tokens, h, TenantFilter(tenant), w.now) {
      TakeTokenKeepsProtocol(cfg, w, w', pid, h);
      StartEvolves(w, w', pid);
    }
  }

  lemma BeginExchangeTakesCode(cfg: Config, w: World, pid: nat, code: string, origin: Option<string>, verifier: string)
    requires pid !in w.procs && IsCodeVerifier(verifier) && CodeShape(code) && CodeMatches(w.codes, Sha256(code), w.now)
    ensures var c := Sha256(code);
      TakesCode(cfg, w, DoBeginExchange(cfg, w, pid, code, origin, verifier), pid, c,
                Exchanging(c, w.codes[c], verifier, w.codes[c].origin, w.now, Issue))
  {
    var c := Sha256(code);
    var x := Exchanging(c, w.codes[c], verifier, w.codes[c].origin, w.now, Issue);
    assert Proves(cfg, w.codes[c], origin, verifier) ==> PkceChallenge(cfg.sha, verifier) == w.codes[c].challenge;
    hide CodeShape, IsCodeVerifier, PkceChallenge, Proves;
    assert w.procs[pid := x] != w.procs;
  }

  lemma BeginExchangeFits(cfg: Config, w: World, pid: nat, code: string, origin: Option<string>, verifier: string)
    requires Known(w) && Fitting(w)
    ensures Fitting(DoBeginExchange(cfg, w, pid, code, origin, verifier))
  {
    hide Fitting, CodeShape, IsCodeVerifier, Proves;
    StartEvolves(w, DoBeginExchange(cfg, w, pid, code, origin, verifier), pid);
  }

  lemma BeginExchangeKeeps(cfg: Config, w: World, pid: nat, code: string, origin: Option<string>, verifier: string)
    requires Protocol(cfg, w) && Known(w) && Fitting(w)
    ensures Protocol(cfg, DoBeginExchange(cfg, w, pid, code, origin, verifier))
    ensures Fitting(DoBeginExchange(cfg, w, pid, code, origin, verifier))
  {
    hide Protocol, Known, Fitting, CodeShape, IsCodeVerifier, Proves, TakesCode;
    var w' := DoBeginExchange(cfg, w, pid, code, origin, verifier);
    var c := Sha256(code);
    BeginExchangeFits(cfg, w, pid, code, origin, verifier);
    if pid !in w.procs && CodeShape(code) && IsCodeVerifier(verifier) && CodeMatches(w.codes, c, w.now) {
      BeginExchangeTakesCode(cfg, w, pid, code, origin, verifier);
      TakeCodeKeepsProtocol(cfg, w, w', pid, c, Exchanging(c, w.codes[c], verifier, w.codes[c].origin, w.now, Issue));
    }
  }

  lemma VerifyStepKeeps(cfg: Config, w: World, pid: nat, e: Env)
    requires Protocol(cfg, w) && Fitting(w) && pid in w.procs && w.procs[pid].Verifying?
    ensures Protocol(cfg, DoContinue(cfg, w, pid, e)) && Fitting(DoContinue(cfg, w, pid, e))
  {
    assert Ids(w) && ProcFits(w, w.procs[pid]) && Known(w) && ProcsGood(cfg, w);
    hide Protocol, Fitting, Known, ProcsGood, Ids, StageFits, Moves, StepAccount, MintCode;
    if InAccountPhase(w.procs[pid].stage) {
      AccountMoves(cfg, w, pid, e);
      MovesKeep(cfg, w, StepAccount(cfg, w, pid, e), pid);
    } else if w.procs[pid].stage.Mint? {
      MintStepKeeps(cfg, w, pid, w.procs[pid].stage.user, w.procs[pid].stage.sid, e);
    } else {
      SessionStepKeeps(cfg, w, pid, e);
    }
  }

  lemma SessionStepKeeps(cfg: Config, w: World, pid: nat, e: Env)
    requires Protocol(cfg, w) && Fitting(w) && pid in w.procs && w.procs[pid].Verifying?
    requires Ids(w) && StageFits(w, w.procs[pid].stage, w.procs[pid].rec.email) && !w.procs[pid].stage.Mint?
    ensures Protocol(cfg, StepSession(cfg, w, pid, e)) && Fitting(StepSession(cfg, w, pid, e))
  {
    hide Protocol, Fitting, Ids, StageFits, Moves, StepSession;
    SessionMoves(cfg, w, pid, e);
    MovesKeep(cfg, w, StepSession(cfg, w, pid, e), pid);
  }

  ghost predicate Inv(cfg: Config, w: World) {
    Protocol(cfg, w) && Fitting(w)
  }

  lemma StatementKeepsInv(cfg: Config, w: World, s: Statement)
    requires Inv(cfg, w)
    ensures Inv(cfg, DoStatement(w, s))
  {
    assert Ids(w);
    hide Protocol, Fitting, Tables, Moves, Ids, DoStatement;
    StatementTables(w, s);
    TablesMove(w, DoStatement(w, s));
    MovesKeep(cfg, w, DoStatement(w, s), 0);
  }

  lemma IdleKeepsInv(cfg: Config, w: World, w': World)
    requires Inv(cfg, w) && w' == w.(now := w'.now, tokens := w'.tokens, codes := w'.codes, procs := w'.procs) && w.now <= w'.now
    requires forall h :: h in w'.tokens ==> h in w.tokens && w'.tokens[h] == w.tokens[h]
    requires forall c :: c in w'.codes ==> c in w.codes && w'.codes[c] == w.codes[c]
    requires forall p :: p in w'.procs ==> p in w.procs && w'.procs[p] == w.procs[p]
    ensures Inv(cfg, w')
  {
    assert Ids(w);
    hide Protocol, Fitting, Ids, Moves;
    IdleMoves(w, w');
    MovesKeep(cfg, w, w', 0);
  }

  lemma StartKeepsInv(cfg: Config, w: World, a: Action)
    requires Inv(cfg, w) && (a.Request? || a.BeginVerify? || a.BeginExchange?)
    ensures Inv(cfg, Step(cfg, w, a))
  {
    assert Known(w);
    hide Protocol, Fitting, Known, DoRequest, DoBeginVerify, DoBeginExchange;
    match a
    case Request(r, allowed, secret, stamp, stored) => RequestKeeps(cfg, w, r, allowed, secret, stamp, stored);
    case BeginVerify(pid, token, tenant) => BeginVerifyKeeps(cfg, w, pid, token, tenant);
    case BeginExchange(pid, code, origin, verifier) => BeginExchangeKeeps(cfg, w, pid, code, origin, verifier);
  }

  lemma ContinueKeepsInv(cfg: Config, w: World, pid: nat, e: Env)
    requires Inv(cfg, w)
    ensures Inv(cfg, DoContinue(cfg, w, pid, e))
  {
    assert ProcsGood(cfg, w);
    hide Protocol, Fitting, ProcsGood, StepExchange, StepAccount, StepSession;
    if pid in w.procs {
      if w.procs[pid].Exchanging? {
        ExchangeStepKeeps(cfg, w, pid, e);
      } else {
        VerifyStepKeeps(cfg, w, pid, e);
      }
    }
  }

  lemma PurgeDeletes(w: World, codes: bool, before: int)
    ensures var w' := DoPurge(w, codes, before);
      && w' == w.(tokens := w'.tokens, codes := w'.codes)
      && (forall h :: h in w'.tokens ==> h in w.tokens && w'.tokens[h] == w.tokens[h])
      && (forall c :: c in w'.codes ==> c in w.codes && w'.codes[c] == w.codes[c])
  {
  }

  lemma PurgeKeepsInv(cfg: Config, w: World, codes: bool, before: int)
    requires Inv(cfg, w)
    ensures Inv(cfg, DoPurge(w, codes, before))
  {
    hide Inv;
    PurgeDeletes(w, codes, before);
    hide DoPurge;
    IdleKeepsInv(cfg, w, DoPurge(w, codes, before));
  }

  lemma StepKeepsInv(cfg: Config, w: World, a: Action)
    requires Inv(cfg, w)
    ensures Inv(cfg, Step(cfg, w, a))
  {
    hide Inv, DoRequest, DoBeginVerify, DoBeginExchange, DoContinue, DoStatement, DoPurge;
    match a
    case Continue(pid, e) => ContinueKeepsInv(cfg, w, pid, e);
    case Other(s) => StatementKeepsInv(cfg, w, s);
    case Abandon(pid) => IdleKeepsInv(cfg, w, End(w, pid));
    case Tick(d) => IdleKeepsInv(cfg, w, w.(now := w.now + d));
    case Purge(codes, before) => PurgeKeepsInv(cfg, w, codes, before);
    case _ => StartKeepsInv(cfg, w, a);
  }

  lemma {:induction false} InvAlways(cfg: Config, run: seq<Action>)
    ensures Inv(cfg, Run(cfg, run))
  {
    if run != [] {
      InvAlways(cfg, run[..|run| - 1]);
      StepKeepsInv(cfg, Run(cfg, run[..|run| - 1]), run[|run| - 1]);
    }
  }

  // ----- main results -----

  /** The code an exchange redeemed, and the request that code goes back to. */
  ghost function MintOf(w: World, j: nat): Minted
    requires j < |w.exchanges| && w.exchanges[j].code in w.mints
  {
    w.mints[w.exchanges[j].code]
  }

  ghost predicate Traceable(w: World, j: nat) {
    j < |w.exchanges| && w.exchanges[j].code in w.mints && w.mints[w.exchanges[j].code].token in w.requests
  }

  ghost function RequestOf(w: World, j: nat): Asked
    requires Traceable(w, j)
  {
    w.requests[MintOf(w, j).token]
  }

  /** Every successful exchange goes back to a request made earlier for the same organization, with the
      challenge of the presented verifier, by the address of the returned user, and is presented at the
      origin that request's destination has. Its code was consumed within 60 seconds of its minting.
      The returned address is the requested one up to case, or the account's placeholder, according to
      whether the account had been anonymized when the exchange read it. */
  lemma ExchangeAgreesWithRequest(cfg: Config, run: seq<Action>, w: World, j: nat)
    requires Reached(cfg, run, w) && j < |w.exchanges|
    ensures var x := w.exchanges[j];
      && Traceable(w, j)
      && var a := RequestOf(w, j);
         var m := MintOf(w, j);
      && IsCodeVerifier(x.verifier) && a.challenge == PkceChallenge(cfg.sha, x.verifier)
      && a.org == x.org
      && Lower(x.email) == (if x.renamed then Lower(Placeholder(x.user)) else a.email)
      && Destination(cfg, a.redirect).Some? && Destination(cfg, a.redirect).value.origin == Some(x.origin)
      && GoesTo(cfg, a.redirect, x.origin)
      && a.at <= m.at <= x.at && m.stamp <= m.at && x.at < m.stamp + 60 * 1_000_000_000
  {
    ReachedIsRun(cfg, run, w);
    InvAlways(cfg, run);
    var x := w.exchanges[j];
    assert ExchangeGood(cfg, w, x) && ExchangeFits(w, x);
    assert MintGood(cfg, w, w.mints[x.code]);
    assert RequestGood(w, w.requests[w.mints[x.code].token]);
    DestinationGoes(cfg, w.requests[w.mints[x.code].token].redirect);
    hide Protocol, Fitting, IsCodeVerifier, PkceChallenge, IsCodeChallenge, Run;
  }

  /** The correspondence is one to one: two exchanges never go back to the same code or the same token. */
  lemma ExchangesAreInjective(cfg: Config, run: seq<Action>, w: World, i: nat, j: nat)
    requires Reached(cfg, run, w) && i < j < |w.exchanges|
    ensures Traceable(w, i) && Traceable(w, j)
    ensures w.exchanges[i].code != w.exchanges[j].code && MintOf(w, i).token != MintOf(w, j).token
  {
    ReachedIsRun(cfg, run, w);
    InvAlways(cfg, run);
    ExchangeAgreesWithRequest(cfg, run, w, i);
    ExchangeAgreesWithRequest(cfg, run, w, j);
    assert CodesApart(w) && TokensApart(w);
    hide Protocol, Fitting, Run;
  }

  /** Each token and each code is consumed at most once, and only before it expires. */
  lemma ConsumedOnceInTime(cfg: Config, run: seq<Action>, w: World, i: nat, j: nat)
    requires Reached(cfg, run, w) && i < |w.uses| && j < |w.uses|
    ensures w.uses[i].at < w.uses[i].expiresAt
    ensures SameKey(w.uses[i], w.uses[j]) ==> i == j
  {
    ReachedIsRun(cfg, run, w);
    InvAlways(cfg, run);
    assert UseGood(w, w.uses[i]);
    assert UsesApart(w);
    hide Protocol, Fitting, Run;
  }

  lemma RenamedWasAnonymized(cfg: Config, run: seq<Action>, w: World, j: nat)
    requires Reached(cfg, run, w) && j < |w.exchanges|
    ensures w.exchanges[j].renamed ==> w.exchanges[j].user in w.anonymized
  {
    ReachedIsRun(cfg, run, w);
    InvAlways(cfg, run);
    hide Run, Protocol;
    assert ExchangeFits(w, w.exchanges[j]);
  }

  /** So unless the link was asked for the placeholder itself, the returned address is the requested one
      exactly when the account had not been anonymized. */
  lemma AddressKeptIffNotRenamed(cfg: Config, run: seq<Action>, w: World, j: nat)
    requires Reached(cfg, run, w) && j < |w.exchanges| && Traceable(w, j)
    requires RequestOf(w, j).email != Lower(Placeholder(w.exchanges[j].user))
    ensures Lower(w.exchanges[j].email) == RequestOf(w, j).email <==> !w.exchanges[j].renamed
  {
    ExchangeAgreesWithRequest(cfg, run, w, j);
    hide Reached, Placeholder, Lower, IsCodeVerifier, PkceChallenge, Destination;
  }

  /** Every code ever minted is bound to an origin the configuration names: an allowlisted one, or that of
      the default redirect, or of the callback when there is no default. It is the allowlisted one exactly
      when the link was requested for a plain URL there. */
  lemma CodesGoWhereConfigured(cfg: Config, run: seq<Action>, w: World, c: Digest)
    requires Reached(cfg, run, w) && c in w.mints
    ensures w.mints[c].token in w.requests && GoesTo(cfg, w.requests[w.mints[c].token].redirect, w.mints[c].origin)
    ensures var o := w.mints[c].origin;
      || o in cfg.allowlist
      || (cfg.defaultRedirect.Some? && cfg.defaultRedirect.value.origin == Some(o))
      || (cfg.defaultRedirect.None? && cfg.callback.Some? && cfg.callback.value.origin == Some(o))
  {
    ReachedIsRun(cfg, run, w);
    InvAlways(cfg, run);
    assert MintGood(cfg, w, w.mints[c]);
    DestinationGoes(cfg, w.requests[w.mints[c].token].redirect);
    hide Protocol, Fitting, IsCodeChallenge, Run, Destination;
  }
}
