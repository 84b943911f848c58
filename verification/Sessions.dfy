/** The sessions table: its SQL statements as atomic functions, and the session check built on them. */
module Sessions {
  import opened Prelude
  import Runs

  type Id = nat

  /** Durations and instants are nanoseconds. */
  const DAY := 24 * 3600 * 1_000_000_000
  const REMEMBER_ME_SPAN := 20 * DAY
  const DEFAULT_TTL := 7 * DAY

  datatype Status = Active | Locked | Suspended | PendingDeletion | Deleted

  datatype User = User(status: Status, deleted: bool)

  datatype Session = Session(user: Id, tokenHash: Digest, createdAt: int, expiresAt: int, lastActive: int,
                             revoked: bool, mfaPending: bool, staff: bool)

  type Table = map<Id, Session>

  datatype Db = Db(users: map<Id, User>, sessions: Table)

  datatype Config = Config(ttl: int, idle: int, staffIdle: int, maxLifetime: int, rotateInterval: int)

  // ----- statements -----

  /** `token_hash` is unique: no other row may hold it. */
  predicate HashFree(t: Table, h: Digest, except: Option<Id>) {
    forall id :: id in t && Some(id) != except ==> t[id].tokenHash != h
  }

  function InsertSession(db: Db, id: Id, s: Session): Option<Db> {
    if id in db.sessions || s.user !in db.users || !HashFree(db.sessions, s.tokenHash, None) then None
    else Some(db.(sessions := db.sessions[id := s]))
  }

  predicate Live(s: Session, now: int) {
    !s.revoked && s.expiresAt > now
  }

  predicate IsBearer(t: Table, h: Digest, now: int, id: Id) {
    id in t && t[id].tokenHash == h && Live(t[id], now)
  }

  /** `UPDATE ... SET token_hash, expires_at, last_active_at WHERE id AND NOT revoked`; zero rows is no error. */
  function RotateToken(t: Table, id: Id, h: Digest, expiresAt: int, now: int): Option<Table> {
    if id !in t || t[id].revoked then Some(t)
    else if !HashFree(t, h, Some(id)) then None
    else Some(t[id := t[id].(tokenHash := h, expiresAt := expiresAt, lastActive := now)])
  }

  /** `UPDATE ... SET token_hash, last_active_at WHERE id AND NOT revoked AND expires_at > NOW()`. */
  function IssueToken(t: Table, id: Id, h: Digest, now: int): Option<Table> {
    if id !in t || !Live(t[id], now) then Some(t)
    else if !HashFree(t, h, Some(id)) then None
    else Some(t[id := t[id].(tokenHash := h, lastActive := now)])
  }

  function RevokeById(t: Table, id: Id): Table {
    if id in t then t[id := t[id].(revoked := true)] else t
  }

  function RevokeForUser(t: Table, user: Id, keep: Option<Id>): Table {
    map id | id in t :: if t[id].user == user && Some(id) != keep then t[id].(revoked := true) else t[id]
  }

  function SetMfaPending(t: Table, id: Id, pending: bool): Table {
    if id in t then t[id := t[id].(mfaPending := pending)] else t
  }

  function Touch(t: Table, id: Id, now: int): Table {
    if id in t then t[id := t[id].(lastActive := now)] else t
  }

  function SetStatus(db: Db, user: Id, status: Status): Db {
    if user in db.users then db.(users := db.users[user := db.users[user].(status := status)]) else db
  }

  /** Deleting a user row cascades to its sessions. */
  function DeleteUser(db: Db, user: Id): Db {
    Db(db.users - {user}, map id | id in db.sessions && db.sessions[id].user != user :: db.sessions[id])
  }

  // ----- the session check -----

  function IdleLimit(cfg: Config, staff: bool, rememberMe: bool): int {
    if staff && cfg.staffIdle > 0 then cfg.staffIdle else if rememberMe then 0 else cfg.idle
  }

  predicate RememberMe(s: Session) {
    s.expiresAt - s.createdAt >= REMEMBER_ME_SPAN
  }

  datatype Verdict = Accept | RefuseLocked | RefuseIdle | RefuseAge

  /** What the check decides about a row it found; `lookupOk` is whether reading the user succeeded. */
  function Judge(cfg: Config, users: map<Id, User>, s: Session, now: int, lookupOk: bool): Verdict {
    var limit := IdleLimit(cfg, s.staff, RememberMe(s));
    if lookupOk && s.user in users && !users[s.user].deleted && users[s.user].status == Locked then RefuseLocked
    else if limit > 0 && now - s.lastActive > limit then RefuseIdle
    else if !RememberMe(s) && cfg.maxLifetime > 0 && now - s.createdAt > cfg.maxLifetime then RefuseAge
    else Accept
  }

  /** Expiry given to a new session. */
  function ExpiryFor(cfg: Config, ttl: int, now: int): int {
    var asked := if ttl > 0 then ttl else if cfg.ttl > 0 then cfg.ttl else DEFAULT_TTL;
    if cfg.maxLifetime > 0 && asked <= cfg.maxLifetime && asked > cfg.maxLifetime then now + cfg.maxLifetime
    else now + asked
  }

  /** The cap by maximum lifetime at creation is never in force: a session always lives its full
      requested time. */
  lemma CreationCapNeverApplies(cfg: Config, ttl: int, now: int)
    ensures ExpiryFor(cfg, ttl, now) == now + (if ttl > 0 then ttl else if cfg.ttl > 0 then cfg.ttl else DEFAULT_TTL)
  {
  }

  // ----- any client of the table, one atomic action at a time -----

  datatype Action =
    | AddUser(user: Id)
    | Insert(id: Id, user: Id, hash: Digest, createdAt: int, expiresAt: int, staff: bool)
    | Rotate(id: Id, hash: Digest, expiresAt: int)
    | Issue(id: Id, hash: Digest)
    | Revoke(id: Id)
    | RevokeAll(user: Id, keep: Option<Id>)
    | SetMfa(id: Id, pending: bool)
    | UpdateStatus(user: Id, status: Status)
    | RemoveUser(user: Id)
    /** `GetSessionByToken` on the row that holds the presented hash; `wrote` is whether the follow-up
        write (touch or revoke, whose error is ignored) took effect. */
    | Check(id: Id, hash: Digest, lookupOk: bool, wrote: bool)

  datatype Event = Event(action: Action, now: int)

  function AfterCheck(cfg: Config, db: Db, id: Id, now: int, lookupOk: bool, wrote: bool): Db
    requires id in db.sessions
  {
    if !wrote then db
    else if Judge(cfg, db.users, db.sessions[id], now, lookupOk) == Accept then
      db.(sessions := Touch(db.sessions, id, now))
    else db.(sessions := RevokeById(db.sessions, id))
  }

  function Exec(cfg: Config, db: Db, e: Event): Db {
    match e.action
    case AddUser(u) => if u in db.users then db else db.(users := db.users[u := User(Active, false)])
    case Insert(id, u, h, created, expires, staff) =>
      (match InsertSession(db, id, Session(u, h, created, expires, created, false, false, staff))
       case None => db
       case Some(db') => db')
    case Rotate(id, h, expires) =>
      (match RotateToken(db.sessions, id, h, expires, e.now) case None => db case Some(t) => db.(sessions := t))
    case Issue(id, h) =>
      (match IssueToken(db.sessions, id, h, e.now) case None => db case Some(t) => db.(sessions := t))
    case Revoke(id) => db.(sessions := RevokeById(db.sessions, id))
    case RevokeAll(u, keep) => db.(sessions := RevokeForUser(db.sessions, u, keep))
    case SetMfa(id, pending) => db.(sessions := SetMfaPending(db.sessions, id, pending))
    case UpdateStatus(u, st) => SetStatus(db, u, st)
    case RemoveUser(u) => DeleteUser(db, u)
    case Check(id, h, lookupOk, wrote) =>
      if IsBearer(db.sessions, h, e.now, id) then AfterCheck(cfg, db, id, e.now, lookupOk, wrote) else db
  }

  /** The check accepts the token: the row holds its hash, is live, and passes every rule. */
  predicate Accepts(cfg: Config, db: Db, e: Event) {
    && e.action.Check?
    && IsBearer(db.sessions, e.action.hash, e.now, e.action.id)
    && Judge(cfg, db.users, db.sessions[e.action.id], e.now, e.action.lookupOk) == Accept
  }

  // ----- what a check comes down to -----

  ghost predicate LockedOut(users: map<Id, User>, user: Id, lookupOk: bool) {
    lookupOk && user in users && users[user].status == Locked && !users[user].deleted
  }

  /** A session whose whole life is at least 20 days is a remembered one. */
  ghost predicate Remembered(s: Session) {
    s.createdAt + 20 * 24 * 3600 * 1_000_000_000 <= s.expiresAt
  }

  /** No longer idle than the limit that applies: the staff limit for staff if there is one, else the
      general one, else none; a remembered session has only the staff limit. */
  ghost predicate InUse(cfg: Config, s: Session, now: int) {
    if s.staff && cfg.staffIdle > 0 then now <= s.lastActive + cfg.staffIdle
    else Remembered(s) || cfg.idle <= 0 || now <= s.lastActive + cfg.idle
  }

  ghost predicate Young(cfg: Config, s: Session, now: int) {
    Remembered(s) || cfg.maxLifetime <= 0 || now <= s.createdAt + cfg.maxLifetime
  }

  /** The row holds the presented hash, is live, its user is not locked, and it is neither idle nor old. */
  ghost predicate Admissible(cfg: Config, db: Db, id: Id, h: Digest, now: int, lookupOk: bool) {
    && id in db.sessions
    && var s := db.sessions[id];
    && s.tokenHash == h && !s.revoked && now < s.expiresAt
    && !LockedOut(db.users, s.user, lookupOk) && InUse(cfg, s, now) && Young(cfg, s, now)
  }

  lemma AcceptsSpelledOut(cfg: Config, db: Db, e: Event)
    requires e.action.Check?
    ensures Accepts(cfg, db, e) <==> Admissible(cfg, db, e.action.id, e.action.hash, e.now, e.action.lookupOk)
  {
  }

  const EMPTY := Db(map[], map[])

  function StepOf(cfg: Config): (Db, Event) -> Db {
    (db, e) => Exec(cfg, db, e)
  }

  function Run(cfg: Config, run: seq<Event>): Db {
    Runs.After(StepOf(cfg), EMPTY, run)
  }

  /** Carrying out `run` from the start leads to `db`. */
  ghost predicate Reached(cfg: Config, run: seq<Event>, db: Db) {
    Runs.Reached(StepOf(cfg), EMPTY, run, db)
  }

  lemma ReachedIsRun(cfg: Config, run: seq<Event>, db: Db)
    ensures Reached(cfg, run, db) <==> db == Run(cfg, run)
  {
    hide StepOf;
    Runs.ReachedIsAfter(StepOf(cfg), EMPTY, run, db);
  }

  // ----- what a single action can do to one row -----

  /** The hash an action writes into a row, when the statement takes effect. */
  function WriteOf(cfg: Config, db: Db, e: Event): Option<(Id, Digest)> {
    match e.action
    case Insert(id, u, h, _, _, _) =>
      if id in db.sessions || u !in db.users || !HashFree(db.sessions, h, None) then None else Some((id, h))
    case Rotate(id, h, _) =>
      if id !in db.sessions || db.sessions[id].revoked || !HashFree(db.sessions, h, Some(id)) then None else Some((id, h))
    case Issue(id, h) =>
      if id !in db.sessions || !Live(db.sessions[id], e.now) || !HashFree(db.sessions, h, Some(id)) then None else Some((id, h))
    case _ => None
  }

  /** A row keeps its owner and creation time, is never un-revoked, changes its hash only by a write,
      and a new row comes only from an insert. */
  lemma RowStep(cfg: Config, db: Db, e: Event, id: Id)
    requires id in Exec(cfg, db, e).sessions
    ensures var s' := Exec(cfg, db, e).sessions[id];
      && (id in db.sessions ==>
            && s'.user == db.sessions[id].user && s'.createdAt == db.sessions[id].createdAt
            && s'.staff == db.sessions[id].staff
            && (db.sessions[id].revoked ==> s'.revoked)
            && (!e.action.Rotate? ==> s'.expiresAt == db.sessions[id].expiresAt))
      && (id !in db.sessions ==> e.action.Insert? && e.action.id == id && !s'.revoked)
    ensures Exec(cfg, db, e).sessions[id].tokenHash ==
      (match WriteOf(cfg, db, e)
       case Some((i, h)) => if i == id then h else if id in db.sessions then db.sessions[id].tokenHash else h
       case None => if id in db.sessions then db.sessions[id].tokenHash else Exec(cfg, db, e).sessions[id].tokenHash)
    ensures id !in db.sessions ==> WriteOf(cfg, db, e).Some? && WriteOf(cfg, db, e).value.0 == id
  {
    RowStepFields(cfg, db, e, id);
    RowStepHash(cfg, db, e, id);
    hide Exec, WriteOf;
  }

  lemma RowStepFields(cfg: Config, db: Db, e: Event, id: Id)
    requires id in Exec(cfg, db, e).sessions
    ensures id in db.sessions ==> Evolved(db.sessions[id], Exec(cfg, db, e).sessions[id], e.action.Rotate?)
    ensures id !in db.sessions ==> e.action.Insert? && e.action.id == id && !Exec(cfg, db, e).sessions[id].revoked
  {
    hide HashFree, Judge, Live, IsBearer;
  }

  /** What no action changes in a row. */
  predicate Evolved(s: Session, s': Session, rotated: bool) {
    && s'.user == s.user && s'.createdAt == s.createdAt && s'.staff == s.staff
    && (s.revoked ==> s'.revoked) && (!rotated ==> s'.expiresAt == s.expiresAt)
  }

  lemma RowStepHash(cfg: Config, db: Db, e: Event, id: Id)
    requires id in Exec(cfg, db, e).sessions
    ensures Exec(cfg, db, e).sessions[id].tokenHash ==
      (match WriteOf(cfg, db, e)
       case Some((i, h)) => if i == id then h else if id in db.sessions then db.sessions[id].tokenHash else h
       case None => if id in db.sessions then db.sessions[id].tokenHash else Exec(cfg, db, e).sessions[id].tokenHash)
    ensures id !in db.sessions ==> WriteOf(cfg, db, e).Some? && WriteOf(cfg, db, e).value.0 == id
  {
    hide HashFree, Judge, Live;
  }
}
