/** The session service: methods that run session statements in order. */
module AuthService {
  import opened Prelude
  import opened Sessions

  datatype Error = SessionNotFound | AccountLocked | UserNotFound | AccountNotLocked | StoreFailure

  datatype Result<+T> = Ok(value: T) | Err(error: Error)

  /** What `IssueToken` returns to the code exchange. */
  datatype Issued = Issued(token: string, user: Id, expiresAt: int, mfaPending: bool)

  datatype NewSession = NewSession(token: string, id: Id)

  /** The users and sessions tables of the auth database, one method per statement. */
  class AuthDb {
    var users: map<Id, User>
    var sessions: map<Id, Session>

    constructor ()
      ensures View() == EMPTY
    {
      users := map[];
      sessions := map[];
    }

    ghost function View(): Db
      reads this
    {
      Db(users, sessions)
    }

    /** The unique index on `token_hash`. */
    ghost predicate Valid()
      reads this
    {
      forall a, b :: a in sessions && b in sessions && a != b ==> sessions[a].tokenHash != sessions[b].tokenHash
    }

    method GetByTokenHash(h: Digest, now: int) returns (found: Option<Id>)
      requires Valid()
      ensures found.Some? ==> IsBearer(sessions, h, now, found.value)
      ensures found.None? <==> forall id :: id in sessions && sessions[id].tokenHash == h ==> sessions[id].revoked || sessions[id].expiresAt <= now
      ensures forall id: Id :: IsBearer(sessions, h, now, id) ==> found == Some(id)
    {
      if id :| id in sessions && sessions[id].tokenHash == h && Live(sessions[id], now) {
        return Some(id);
      }
      return None;
    }

    method Insert(id: Id, s: Session) returns (ok: bool)
      requires Valid()
      modifies this`sessions
      ensures Valid()
      ensures ok <==> InsertSession(old(View()), id, s).Some?
      ensures View() == if ok then InsertSession(old(View()), id, s).value else old(View())
    {
      ok := id !in sessions && s.user in users && forall o :: o in sessions ==> sessions[o].tokenHash != s.tokenHash;
      if ok {
        sessions := sessions[id := s];
      }
    }

    method Rotate(id: Id, h: Digest, expiresAt: int, now: int) returns (ok: bool)
      requires Valid()
      modifies this`sessions
      ensures Valid()
      ensures ok <==> RotateToken(old(sessions), id, h, expiresAt, now).Some?
      ensures sessions == if ok then RotateToken(old(sessions), id, h, expiresAt, now).value else old(sessions)
    {
      if id !in sessions || sessions[id].revoked {
        return true;
      }
      ok := forall o :: o in sessions && o != id ==> sessions[o].tokenHash != h;
      if ok {
        sessions := sessions[id := sessions[id].(tokenHash := h, expiresAt := expiresAt, lastActive := now)];
      }
    }

    method Issue(id: Id, h: Digest, now: int) returns (ok: bool, row: Option<Session>)
      requires Valid()
      modifies this`sessions
      ensures Valid()
      ensures ok <==> IssueToken(old(sessions), id, h, now).Some?
      ensures sessions == if ok then IssueToken(old(sessions), id, h, now).value else old(sessions)
      ensures row.Some? <==> ok && id in old(sessions) && Live(old(sessions)[id], now)
      ensures row.Some? ==> id in sessions && row.value == sessions[id]
    {
      if id !in sessions || !Live(sessions[id], now) {
        return true, None;
      }
      ok := forall o :: o in sessions && o != id ==> sessions[o].tokenHash != h;
      row := None;
      if ok {
        sessions := sessions[id := sessions[id].(tokenHash := h, lastActive := now)];
        row := Some(sessions[id]);
      }
    }

    method UpdateRow(id: Id, s: Session)
      requires Valid() && id in sessions && s.tokenHash == sessions[id].tokenHash
      modifies this`sessions
      ensures Valid() && sessions == old(sessions)[id := s]
    {
      sessions := sessions[id := s];
    }

    method RevokeAll(user: Id)
      requires Valid()
      modifies this`sessions
      ensures Valid() && sessions == RevokeForUser(old(sessions), user, None)
    {
      sessions := map id | id in sessions ::
        if sessions[id].user == user then sessions[id].(revoked := true) else sessions[id];
    }

    method WriteStatus(user: Id, status: Status)
      modifies this`users
      ensures View() == SetStatus(old(View()), user, status)
    {
      if user in users {
        users := users[user := users[user].(status := status)];
      }
    }
  }

  /** There is no unrevoked session with the id. */
  ghost predicate Gone(sessions: map<Id, Session>, id: Id) {
    id !in sessions || sessions[id].revoked
  }

  /** No other session holds the hash. */
  ghost predicate Unshared(sessions: map<Id, Session>, id: Id, h: Digest) {
    forall o :: o in sessions && o != id ==> sessions[o].tokenHash != h
  }

  class Service {
    const db: AuthDb
    const cfg: Config

    constructor (db: AuthDb, cfg: Config)
      ensures this.db == db && this.cfg == cfg
    {
      this.db := db;
      this.cfg := cfg;
    }

    /** `secret` and `id` are the generated token and row id; `stored` is whether the insert reached the store. */
    method CreateSessionWithTtl(user: Id, ttl: int, staff: bool, now: int, id: Id, secret: string, stored: bool)
      returns (r: Result<NewSession>)
      requires db.Valid()
      modifies db
      ensures db.Valid()
      ensures r.Ok? <==>
        stored && id !in old(db.sessions) && user in old(db.users) && HashFree(old(db.sessions), Sha256(secret), None)
      ensures r.Ok? ==> r.value == NewSession(secret, id) && IsBearer(db.sessions, Sha256(secret), now, id)
      ensures r.Ok? ==>
        db.View() == Exec(cfg, old(db.View()), Event(Insert(id, user, Sha256(secret), now, ExpiryFor(cfg, ttl, now), staff), now))
      ensures r.Ok? ==>
        db.sessions[id].expiresAt == now + (if ttl > 0 then ttl else if cfg.ttl > 0 then cfg.ttl else DEFAULT_TTL)
      ensures r.Err? ==> db.View() == old(db.View())
      // on the rows alone
      ensures r.Ok? <==>
        && stored && id !in old(db.sessions) && user in old(db.users)
        && forall o :: o in old(db.sessions) ==> old(db.sessions)[o].tokenHash != Sha256(secret)
      ensures r.Ok? ==>
        var life := if ttl > 0 then ttl else if cfg.ttl > 0 then cfg.ttl else 7 * 24 * 3600 * 1_000_000_000;
        db.users == old(db.users)
        && db.sessions == old(db.sessions)[id := Session(user, Sha256(secret), now, now + life, now, false, false, staff)]
    {
      CreationCapNeverApplies(cfg, ttl, now);
      var asked := if ttl <= 0 then cfg.ttl else ttl;
      if asked <= 0 {
        asked := DEFAULT_TTL;
      }
      var expiresAt := now + asked;
      if cfg.maxLifetime > 0 && asked <= cfg.maxLifetime && expiresAt > now + cfg.maxLifetime {
        expiresAt := now + cfg.maxLifetime;
      }
      if !stored {
        return Err(StoreFailure);
      }
      var ok := db.Insert(id, Session(user, Sha256(secret), now, expiresAt, now, false, false, staff));
      if !ok {
        return Err(StoreFailure);
      }
      return Ok(NewSession(secret, id));
    }

    /** Accepts exactly when the table check does on the row holding the token's hash (`hit`), and
        leaves behind exactly that check's write. */
    method GetSessionByToken(token: string, now: int, lookupOk: bool, wrote: bool)
      returns (r: Result<Session>, ghost hit: Option<Id>)
      requires db.Valid()
      modifies db
      ensures db.Valid()
      ensures forall id: Id :: IsBearer(old(db.sessions), Sha256(token), now, id) ==> hit == Some(id)
      ensures hit.None? ==> r == Err(SessionNotFound) && db.View() == old(db.View())
      ensures hit.Some? ==> IsBearer(old(db.sessions), Sha256(token), now, hit.value)
      ensures hit.Some? ==> CheckedAs(old(db.View()), Event(Check(hit.value, Sha256(token), lookupOk, wrote), now), r)
      ensures hit.Some? ==>
        db.View() == Exec(cfg, old(db.View()), Event(Check(hit.value, Sha256(token), lookupOk, wrote), now))
      // on the rows alone
      ensures r.Ok? <==> exists id :: Admissible(cfg, old(db.View()), id, Sha256(token), now, lookupOk)
      ensures forall id :: Admissible(cfg, old(db.View()), id, Sha256(token), now, lookupOk) ==> r == Ok(old(db.sessions)[id])
      ensures r == Err(AccountLocked) <==> exists id :: id in old(db.sessions) && LockedBearer(old(db.View()), id, Sha256(token), now, lookupOk)
      ensures db.users == old(db.users) && (hit.None? || !wrote ==> db.sessions == old(db.sessions))
      ensures hit.Some? && wrote ==>
        var s := old(db.sessions)[hit.value];
        db.sessions == old(db.sessions)[hit.value := if r.Ok? then s.(lastActive := now) else s.(revoked := true)]
    {
      forall id ensures Accepts(cfg, db.View(), Event(Check(id, Sha256(token), lookupOk, wrote), now)) <==>
        Admissible(cfg, db.View(), id, Sha256(token), now, lookupOk)
      {
        AcceptsSpelledOut(cfg, db.View(), Event(Check(id, Sha256(token), lookupOk, wrote), now));
      }
      hide Admissible;
      var found := db.GetByTokenHash(Sha256(token), now);
      hit := found;
      if found.None? {
        return Err(SessionNotFound), hit;
      }
      var id := found.value;
      r := JudgeRow(id, now, lookupOk);
      if wrote {
        WriteVerdict(id, r.Ok?, now);
      }
    }

    ghost predicate LockedBearer(db: Db, id: Id, h: Digest, now: int, lookupOk: bool)
      requires id in db.sessions
    {
      && db.sessions[id].tokenHash == h && !db.sessions[id].revoked && now < db.sessions[id].expiresAt
      && LockedOut(db.users, db.sessions[id].user, lookupOk)
    }

    ghost predicate CheckedAs(before: Db, e: Event, r: Result<Session>)
      requires e.action.Check? && e.action.id in before.sessions
    {
      && (r.Ok? <==> Accepts(cfg, before, e))
      && (r.Ok? ==> r.value == before.sessions[e.action.id])
      && (r == Err(AccountLocked) <==>
            Judge(cfg, before.users, before.sessions[e.action.id], e.now, e.action.lookupOk) == RefuseLocked)
    }

    method WriteVerdict(id: Id, accepted: bool, now: int)
      requires db.Valid() && id in db.sessions
      modifies db
      ensures db.Valid() && db.users == old(db.users)
      ensures db.sessions == if accepted then Touch(old(db.sessions), id, now) else RevokeById(old(db.sessions), id)
    {
      var s := db.sessions[id];
      if accepted {
        db.UpdateRow(id, s.(lastActive := now));
      } else {
        db.UpdateRow(id, s.(revoked := true));
      }
    }

    method JudgeRow(id: Id, now: int, lookupOk: bool) returns (r: Result<Session>)
      requires id in db.sessions
      ensures r == (match Judge(cfg, db.users, db.sessions[id], now, lookupOk)
                    case Accept => Ok(db.sessions[id])
                    case RefuseLocked => Err(AccountLocked)
                    case _ => Err(SessionNotFound))
    {
      var s := db.sessions[id];
      if lookupOk && s.user in db.users && !db.users[s.user].deleted && db.users[s.user].status == Locked {
        return Err(AccountLocked);
      }
      var rememberMe := s.expiresAt - s.createdAt >= REMEMBER_ME_SPAN;
      var limit := IdleLimit(cfg, s.staff, rememberMe);
      if limit > 0 && now - s.lastActive > limit {
        return Err(SessionNotFound);
      }
      if !rememberMe && cfg.maxLifetime > 0 && now - s.createdAt > cfg.maxLifetime {
        return Err(SessionNotFound);
      }
      return Ok(s);
    }

    /** Returns a replacement token, or none when rotation is off or not yet due. */
    method RotateSession(id: Id, createdAt: int, now: int, secret: string, stored: bool) returns (r: Result<Option<string>>)
      requires db.Valid()
      modifies db
      ensures db.Valid()
      ensures r == Ok(None) <==> cfg.rotateInterval <= 0 || now - createdAt < cfg.rotateInterval
      ensures r == Ok(None) ==> db.View() == old(db.View())
      ensures r.Ok? && r.value.Some? ==> r.value == Some(secret)
      ensures r.Ok? && r.value.Some? ==> db.View() == Exec(cfg, old(db.View()), Event(Rotate(id, Sha256(secret), now + cfg.ttl), now))
      ensures r.Err? ==> db.View() == old(db.View())
      // on the rows alone
      ensures cfg.rotateInterval > 0 && now - createdAt >= cfg.rotateInterval ==>
        (r == Ok(Some(secret)) <==> stored && (Gone(old(db.sessions), id) || Unshared(old(db.sessions), id, Sha256(secret))))
      ensures r.Ok? && r.value.Some? ==>
        && db.users == old(db.users)
        && db.sessions ==
           if Gone(old(db.sessions), id) then old(db.sessions)
           else old(db.sessions)[id := old(db.sessions)[id].(tokenHash := Sha256(secret), expiresAt := now + cfg.ttl, lastActive := now)]
    {
      if cfg.rotateInterval <= 0 || now - createdAt < cfg.rotateInterval {
        return Ok(None);
      }
      if !stored {
        return Err(StoreFailure);
      }
      var ok := db.Rotate(id, Sha256(secret), now + cfg.ttl, now);
      if !ok {
        return Err(StoreFailure);
      }
      return Ok(Some(secret));
    }

    method IssueSessionToken(id: Id, now: int, secret: string, stored: bool) returns (r: Result<Issued>)
      requires db.Valid()
      modifies db
      ensures db.Valid()
      ensures stored && IssueToken(old(db.sessions), id, Sha256(secret), now).Some? ==>
        && db.View() == Exec(cfg, old(db.View()), Event(Issue(id, Sha256(secret)), now))
        && (r.Ok? <==> id in old(db.sessions) && Live(old(db.sessions)[id], now))
      ensures r.Ok? ==> IsBearer(db.sessions, Sha256(secret), now, id)
      ensures r.Ok? ==> id in old(db.sessions)
      ensures r.Ok? ==>
        r.value == Issued(secret, old(db.sessions)[id].user, old(db.sessions)[id].expiresAt, old(db.sessions)[id].mfaPending)
      ensures r.Err? ==> db.View() == old(db.View())
      // on the rows alone
      ensures r.Ok? <==>
        && stored && !Gone(old(db.sessions), id) && now < old(db.sessions)[id].expiresAt
        && Unshared(old(db.sessions), id, Sha256(secret))
      ensures r.Ok? ==>
        && db.users == old(db.users)
        && db.sessions == old(db.sessions)[id := old(db.sessions)[id].(tokenHash := Sha256(secret), lastActive := now)]
    {
      if !stored {
        return Err(StoreFailure);
      }
      var ok, row := db.Issue(id, Sha256(secret), now);
      if !ok {
        return Err(StoreFailure);
      }
      match row {
        case None => return Err(SessionNotFound);
        case Some(s) => return Ok(Issued(secret, s.user, s.expiresAt, s.mfaPending));
      }
    }

    /** Marks the account locked, then revokes every session: on success both have happened, and a
        failure between the two still leaves the account locked. */
    method LockUser(user: Id, lookupOk: bool, statusOk: bool, revokeOk: bool, now: int) returns (r: Result<()>)
      requires db.Valid()
      modifies db
      ensures db.Valid()
      ensures r.Ok? <==> lookupOk && user in old(db.users) && !old(db.users)[user].deleted && statusOk && revokeOk
      ensures r.Ok? ==>
        db.View() == Exec(cfg, Exec(cfg, old(db.View()), Event(UpdateStatus(user, Locked), now)), Event(RevokeAll(user, None), now))
      ensures r.Ok? ==> user in db.users && db.users[user].status == Locked
      ensures r.Ok? ==> forall id :: id in db.sessions && db.sessions[id].user == user ==> db.sessions[id].revoked
      ensures r.Err? ==> db.sessions == old(db.sessions)
      ensures r == Err(UserNotFound) ==> db.View() == old(db.View())
      // on the rows alone
      ensures db.users ==
        if lookupOk && user in old(db.users) && !old(db.users)[user].deleted && statusOk
        then old(db.users)[user := old(db.users)[user].(status := Locked)] else old(db.users)
      ensures db.sessions.Keys == old(db.sessions).Keys
      ensures r.Ok? ==> forall id :: id in db.sessions ==>
        db.sessions[id] == old(db.sessions)[id].(revoked := old(db.sessions)[id].user == user || old(db.sessions)[id].revoked)
      ensures r == Err(UserNotFound) <==> lookupOk && (user !in old(db.users) || old(db.users)[user].deleted)
    {
      if !lookupOk {
        return Err(StoreFailure);
      }
      if user !in db.users || db.users[user].deleted {
        return Err(UserNotFound);
      }
      if !statusOk {
        return Err(StoreFailure);
      }
      db.WriteStatus(user, Locked);
      if !revokeOk {
        return Err(StoreFailure);
      }
      db.RevokeAll(user);
      return Ok(());
    }

    /** Returns a locked account to active and leaves every session, revoked ones included, as it was. */
    method UnlockUser(user: Id, lookupOk: bool, statusOk: bool) returns (r: Result<()>)
      modifies db
      ensures db.sessions == old(db.sessions)
      ensures r.Ok? ==> user in old(db.users) && old(db.users)[user].status == Locked
      ensures r.Ok? ==> db.users == old(db.users)[user := old(db.users)[user].(status := Active)]
      ensures r.Err? ==> db.users == old(db.users)
      ensures user in old(db.users) && lookupOk && !old(db.users)[user].deleted && old(db.users)[user].status != Locked ==>
        r == Err(AccountNotLocked)
      ensures r.Ok? <==>
        lookupOk && statusOk && user in old(db.users) && !old(db.users)[user].deleted && old(db.users)[user].status == Locked
      ensures r == Err(UserNotFound) <==> lookupOk && (user !in old(db.users) || old(db.users)[user].deleted)
    {
      if !lookupOk {
        return Err(StoreFailure);
      }
      if user !in db.users || db.users[user].deleted {
        return Err(UserNotFound);
      }
      if db.users[user].status != Locked {
        return Err(AccountNotLocked);
      }
      if !statusOk {
        return Err(StoreFailure);
      }
      db.WriteStatus(user, Active);
      return Ok(());
    }
  }
}
