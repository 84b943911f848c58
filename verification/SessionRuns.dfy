/** Properties of every run of session statements, in any interleaving of any number of clients. */
module SessionRuns {
  import opened Prelude
  import Runs
  import opened Sessions

  // ----- fresh secrets and the write history -----

  /** The hash of the freshly drawn secret an action carries. */
  function Drawn(a: Action): Option<Digest> {
    match a
    case Insert(_, _, h, _, _, _) => Some(h)
    case Rotate(_, h, _) => Some(h)
    case Issue(_, h) => Some(h)
    case _ => None
  }

  /** Generated secrets and row ids never repeat. */
  ghost predicate Fresh(run: seq<Event>) {
    && (forall i, j :: 0 <= i < j < |run| && Drawn(run[i].action).Some? ==> Drawn(run[i].action) != Drawn(run[j].action))
    && (forall i, j :: 0 <= i < j < |run| && run[i].action.Insert? && run[j].action.Insert? ==>
          run[i].action.id != run[j].action.id)
  }

  lemma FreshPrefix(run: seq<Event>, n: nat)
    requires Fresh(run) && n <= |run|
    ensures Fresh(run[..n])
  {
  }

  /** Every token hash a statement actually stored, in order. */
  function Writes(cfg: Config, run: seq<Event>): seq<(Id, Digest)> {
    if run == [] then []
    else
      var before, e := run[..|run| - 1], run[|run| - 1];
      Writes(cfg, before) +
        (match WriteOf(cfg, Run(cfg, before), e) case None => [] case Some(w) => [w])
  }

  /** Position of the latest write to a session. */
  function LastWrite(writes: seq<(Id, Digest)>, id: Id): (k: Option<nat>)
    ensures k.Some? ==> k.value < |writes| && writes[k.value].0 == id
    ensures k.Some? ==> forall m :: k.value < m < |writes| ==> writes[m].0 != id
    ensures k.None? ==> forall m :: 0 <= m < |writes| ==> writes[m].0 != id
  {
    if writes == [] then None
    else if writes[|writes| - 1].0 == id then Some(|writes| - 1)
    else LastWrite(writes[..|writes| - 1], id)
  }

  lemma LastWriteAppend(writes: seq<(Id, Digest)>, w: (Id, Digest), id: Id)
    ensures LastWrite(writes + [w], id) == if w.0 == id then Some(|writes|) else LastWrite(writes, id)
  {
    assert (writes + [w])[..|writes|] == writes;
  }

  lemma {:induction false} RowHoldsLastWrite(cfg: Config, run: seq<Event>, id: Id)
    requires id in Run(cfg, run).sessions
    ensures var k := LastWrite(Writes(cfg, run), id);
      k.Some? && Writes(cfg, run)[k.value].1 == Run(cfg, run).sessions[id].tokenHash
  {
    var before, e := run[..|run| - 1], run[|run| - 1];
    var db := Run(cfg, before);
    RowStep(cfg, db, e, id);
    if id in db.sessions {
      RowHoldsLastWrite(cfg, before, id);
    }
    if w :| WriteOf(cfg, db, e) == Some(w) {
      LastWriteAppend(Writes(cfg, before), w, id);
    } else {
      assert Writes(cfg, run) == Writes(cfg, before);
    }
  }

  lemma {:induction false} WritesWereDrawn(cfg: Config, run: seq<Event>, k: nat)
    requires k < |Writes(cfg, run)|
    ensures exists i :: 0 <= i < |run| && Drawn(run[i].action) == Some(Writes(cfg, run)[k].1)
  {
    var before, e := run[..|run| - 1], run[|run| - 1];
    if k < |Writes(cfg, before)| {
      WritesWereDrawn(cfg, before, k);
      var i :| 0 <= i < |before| && Drawn(before[i].action) == Some(Writes(cfg, before)[k].1);
      assert run[i] == before[i];
    } else {
      assert Drawn(run[|run| - 1].action) == Some(Writes(cfg, run)[k].1);
    }
  }

  lemma {:induction false} WritesAreDistinct(cfg: Config, run: seq<Event>, i: nat, j: nat)
    requires Fresh(run) && i < j < |Writes(cfg, run)|
    ensures Writes(cfg, run)[i].1 != Writes(cfg, run)[j].1
  {
    var before, e := run[..|run| - 1], run[|run| - 1];
    FreshPrefix(run, |run| - 1);
    if j < |Writes(cfg, before)| {
      WritesAreDistinct(cfg, before, i, j);
    } else {
      WritesWereDrawn(cfg, before, i);
      var n :| 0 <= n < |before| && Drawn(before[n].action) == Some(Writes(cfg, before)[i].1);
      assert run[n] == before[n];
      assert Drawn(run[|run| - 1].action) == Some(Writes(cfg, run)[j].1);
    }
  }

  lemma {:induction false} HashesStayDistinct(cfg: Config, run: seq<Event>, a: Id, b: Id)
    requires a in Run(cfg, run).sessions && b in Run(cfg, run).sessions && a != b
    ensures Run(cfg, run).sessions[a].tokenHash != Run(cfg, run).sessions[b].tokenHash
  {
    var before, e := run[..|run| - 1], run[|run| - 1];
    var db := Run(cfg, before);
    RowStep(cfg, db, e, a);
    RowStep(cfg, db, e, b);
    if a in db.sessions && b in db.sessions {
      HashesStayDistinct(cfg, before, a, b);
    }
  }

  // ----- at most one live bearer -----

  /** The tables together with the hashes stored so far, in order. */
  function Next(cfg: Config, s: (Db, seq<(Id, Digest)>), e: Event): (Db, seq<(Id, Digest)>) {
    (Exec(cfg, s.0, e), s.1 + (match WriteOf(cfg, s.0, e) case None => [] case Some(w) => [w]))
  }

  function NextOf(cfg: Config): ((Db, seq<(Id, Digest)>), Event) -> (Db, seq<(Id, Digest)>) {
    (s, e) => Next(cfg, s, e)
  }

  /** Carrying out `run` from the start leads to `db`, having stored the hashes `writes`. */
  ghost predicate ReachedWriting(cfg: Config, run: seq<Event>, db: Db, writes: seq<(Id, Digest)>) {
    Runs.Reached(NextOf(cfg), (EMPTY, []), run, (db, writes))
  }

  lemma {:induction false} AfterIsRun(cfg: Config, run: seq<Event>)
    ensures Runs.After(NextOf(cfg), (EMPTY, []), run) == (Run(cfg, run), Writes(cfg, run))
  {
    hide Exec, WriteOf;
    if run != [] {
      AfterIsRun(cfg, run[..|run| - 1]);
    }
  }

  lemma ReachedWritingIsRun(cfg: Config, run: seq<Event>, db: Db, writes: seq<(Id, Digest)>)
    ensures ReachedWriting(cfg, run, db, writes) <==> db == Run(cfg, run) && writes == Writes(cfg, run)
  {
    hide NextOf;
    Runs.ReachedIsAfter(NextOf(cfg), (EMPTY, []), run, (db, writes));
    AfterIsRun(cfg, run);
  }

  /** In every reachable state a presented hash authenticates at most one session, and only when it is
      the last hash stored for that session. */
  lemma OneLiveBearer(cfg: Config, run: seq<Event>, db: Db, writes: seq<(Id, Digest)>, h: Digest, now: int, id: Id)
    requires ReachedWriting(cfg, run, db, writes) && IsBearer(db.sessions, h, now, id)
    ensures var k := LastWrite(writes, id); k.Some? && writes[k.value].1 == h
    ensures forall other :: IsBearer(db.sessions, h, now, other) ==> other == id
  {
    ReachedWritingIsRun(cfg, run, db, writes);
    RowHoldsLastWrite(cfg, run, id);
    hide Run, Writes, LastWrite;
    forall other | IsBearer(db.sessions, h, now, other) ensures other == id {
      if other != id {
        HashesStayDistinct(cfg, run, other, id);
      }
    }
  }

  /** Once a session's token has been replaced, the old token authenticates nothing, ever: the run may
      continue in any way after the replacement. */
  lemma SupersededTokenIsDead(cfg: Config, run: seq<Event>, db: Db, writes: seq<(Id, Digest)>, i: nat, j: nat, now: int, any: Id)
    requires ReachedWriting(cfg, run, db, writes) && Fresh(run) && i < j < |writes| && writes[i].0 == writes[j].0
    ensures !IsBearer(db.sessions, writes[i].1, now, any)
  {
    ReachedWritingIsRun(cfg, run, db, writes);
    if IsBearer(Run(cfg, run).sessions, Writes(cfg, run)[i].1, now, any) {
      RowHoldsLastWrite(cfg, run, any);
      var k := LastWrite(Writes(cfg, run), any).value;
      if k < i {
        WritesAreDistinct(cfg, run, k, i);
      } else if i < k {
        WritesAreDistinct(cfg, run, i, k);
      }
    }
  }

  // ----- revocation and locking -----

  lemma {:induction false} RowsWereInserted(cfg: Config, run: seq<Event>, id: Id)
    requires id in Run(cfg, run).sessions
    ensures exists i :: 0 <= i < |run| && run[i].action.Insert? && run[i].action.id == id
  {
    var before, e := run[..|run| - 1], run[|run| - 1];
    RowStep(cfg, Run(cfg, before), e, id);
    if id in Run(cfg, before).sessions {
      RowsWereInserted(cfg, before, id);
      var i :| 0 <= i < |before| && before[i].action.Insert? && before[i].action.id == id;
      assert run[i] == before[i];
    } else {
      assert run[|run| - 1].action.Insert?;
    }
  }

  /** A row that survives from an earlier point of the run was there all the time in between. */
  lemma RowPersists(cfg: Config, run: seq<Event>, n: nat, id: Id)
    requires Fresh(run) && n < |run|
    requires id in Run(cfg, run[..n]).sessions && id in Run(cfg, run).sessions
    ensures id in Run(cfg, run[..|run| - 1]).sessions
  {
    var before, e := run[..|run| - 1], run[|run| - 1];
    RowStep(cfg, Run(cfg, before), e, id);
    RowsWereInserted(cfg, run[..n], id);
    var i :| 0 <= i < n && run[..n][i].action.Insert? && run[..n][i].action.id == id;
    assert run[i] == run[..n][i];
    assert run[|run| - 1] == e;
  }

  /** What never changes about a row: owner, creation time, staff mark, and revocation once set. */
  lemma {:induction false} RowConstants(cfg: Config, run: seq<Event>, n: nat, id: Id)
    requires Fresh(run) && n <= |run|
    requires id in Run(cfg, run[..n]).sessions && id in Run(cfg, run).sessions
    ensures var s, s' := Run(cfg, run[..n]).sessions[id], Run(cfg, run).sessions[id];
      s'.user == s.user && s'.createdAt == s.createdAt && s'.staff == s.staff && (s.revoked ==> s'.revoked)
    decreases |run|
  {
    if n < |run| {
      var before := run[..|run| - 1];
      RowPersists(cfg, run, n, id);
      FreshPrefix(run, |run| - 1);
      assert before[..n] == run[..n];
      RowConstants(cfg, before, n, id);
      RowStep(cfg, Run(cfg, before), run[|run| - 1], id);
    } else {
      assert run[..n] == run;
    }
  }

  /** The event revokes the session: by name, with all others of its user but perhaps a kept one, or by a
      check that presents its token, finds it live, refuses it, and can write that down. */
  ghost predicate Revokes(cfg: Config, db: Db, e: Event, id: Id)
    requires id in db.sessions
  {
    var s := db.sessions[id];
    || e.action == Revoke(id)
    || (e.action.RevokeAll? && e.action.user == s.user && e.action.keep != Some(id))
    || (e.action.Check? && e.action.id == id && e.action.wrote && e.action.hash == s.tokenHash && !s.revoked && e.now < s.expiresAt
        && !Admissible(cfg, db, id, s.tokenHash, e.now, e.action.lookupOk))
  }

  lemma RevokedStep(cfg: Config, db: Db, e: Event, id: Id)
    requires id in Exec(cfg, db, e).sessions
    ensures if id in db.sessions then Exec(cfg, db, e).sessions[id].revoked <==> db.sessions[id].revoked || Revokes(cfg, db, e, id)
            else !Exec(cfg, db, e).sessions[id].revoked
  {
    if e.action.Check? {
      AcceptsSpelledOut(cfg, db, e);
      hide Admissible;
    } else {
      hide Admissible, HashFree;
    }
  }

  ghost predicate RevokedAt(cfg: Config, run: seq<Event>, i: nat, id: Id)
    requires i < |run|
  {
    var db := Run(cfg, run[..i]);
    id in db.sessions && Revokes(cfg, db, run[i], id)
  }

  /** A session is revoked exactly when some event of the run did that: nothing else takes a session away,
      and a revocation is never undone. */
  lemma {:induction false} RevokedExactlyWhen(cfg: Config, run: seq<Event>, id: Id)
    requires Fresh(run) && id in Run(cfg, run).sessions
    ensures Run(cfg, run).sessions[id].revoked <==> exists i :: 0 <= i < |run| && RevokedAt(cfg, run, i, id)
  {
    if run != [] {
      var m := |run| - 1;
      var before := run[..m];
      FreshPrefix(run, m);
      RevokedStep(cfg, Run(cfg, before), run[m], id);
      assert forall i :: 0 <= i < m ==> before[..i] == run[..i] && before[i] == run[i];
      assert RevokedAt(cfg, run, m, id) <==> id in Run(cfg, before).sessions && Revokes(cfg, Run(cfg, before), run[m], id);
      hide Revokes, Exec;
      if id in Run(cfg, before).sessions {
        RevokedExactlyWhen(cfg, before, id);
        assert forall i :: 0 <= i < m ==> (RevokedAt(cfg, before, i, id) <==> RevokedAt(cfg, run, i, id));
        assert (exists i :: 0 <= i < m && RevokedAt(cfg, before, i, id)) <==> exists i :: 0 <= i < m && RevokedAt(cfg, run, i, id);
      } else {
        forall i | 0 <= i < m ensures !RevokedAt(cfg, run, i, id) {
          if id in Run(cfg, run[..i]).sessions {
            RowPersists(cfg, run, i, id);
          }
        }
        assert Run(cfg, run) == Exec(cfg, Run(cfg, before), run[m]);
      }
    }
  }

  /** Every session a user has when `RevokeAllForUser` runs (the last statement of locking an account)
      is refused in every later state, whatever happens next: rotation, issue, unlocking included. */
  lemma RevokedSessionsStayRefused(cfg: Config, run: seq<Event>, n: nat, user: Id, id: Id, h: Digest, now: int)
    requires Fresh(run) && n < |run| && run[n].action == RevokeAll(user, None)
    requires id in Run(cfg, run[..n + 1]).sessions && Run(cfg, run[..n + 1]).sessions[id].user == user
    ensures !IsBearer(Run(cfg, run).sessions, h, now, id)
  {
    assert run[..n + 1][..n] == run[..n];
    assert Run(cfg, run[..n + 1]) == Exec(cfg, Run(cfg, run[..n]), run[n]);
    if id in Run(cfg, run).sessions {
      RowConstants(cfg, run, n + 1, id);
    }
  }

  /** While the owner is locked no check of any of the user's sessions succeeds, old or new. */
  lemma LockedUserIsRefused(cfg: Config, db: Db, e: Event)
    requires e.action.Check? && e.action.lookupOk && e.action.id in db.sessions
    requires var u := db.sessions[e.action.id].user;
      u in db.users && !db.users[u].deleted && db.users[u].status == Locked
    ensures !Accepts(cfg, db, e)
    ensures Exec(cfg, db, e).users == db.users
    ensures IsBearer(db.sessions, e.action.hash, e.now, e.action.id) && e.action.wrote ==>
      Exec(cfg, db, e).sessions[e.action.id].revoked
  {
  }

  /** Once a user is locked, and until someone changes the status again or removes the user, no check of
      any session of the user is accepted, however the sessions are rotated, issued or created; a check
      whose write takes effect revokes the session. */
  lemma {:induction false} LockedUserStaysRefused(cfg: Config, run: seq<Event>, n: nat, user: Id, e: Event)
    requires n < |run| && run[n].action == UpdateStatus(user, Locked)
    requires user in Run(cfg, run[..n]).users && !Run(cfg, run[..n]).users[user].deleted
    requires forall i :: n < i < |run| ==> !ChangesStatus(run[i].action, user)
    requires e.action.Check? && e.action.lookupOk
    requires e.action.id in Run(cfg, run).sessions ==> Run(cfg, run).sessions[e.action.id].user == user
    ensures !Accepts(cfg, Run(cfg, run), e)
    ensures IsBearer(Run(cfg, run).sessions, e.action.hash, e.now, e.action.id) && e.action.wrote ==>
      Exec(cfg, Run(cfg, run), e).sessions[e.action.id].revoked
  {
    LockPersists(cfg, run, n, user);
    if e.action.id in Run(cfg, run).sessions {
      LockedUserIsRefused(cfg, Run(cfg, run), e);
    }
    hide Exec, Judge;
  }

  predicate ChangesStatus(a: Action, user: Id) {
    (a.UpdateStatus? || a.RemoveUser?) && a.user == user
  }

  lemma {:induction false} LockPersists(cfg: Config, run: seq<Event>, n: nat, user: Id)
    requires n < |run| && run[n].action == UpdateStatus(user, Locked)
    requires user in Run(cfg, run[..n]).users && !Run(cfg, run[..n]).users[user].deleted
    requires forall i :: n < i < |run| ==> !ChangesStatus(run[i].action, user)
    ensures var users := Run(cfg, run).users; user in users && !users[user].deleted && users[user].status == Locked
    decreases |run|
  {
    var m := |run| - 1;
    var before := run[..m];
    if n < m {
      assert before[..n] == run[..n];
      assert forall i :: 0 <= i < m ==> before[i] == run[i];
      LockPersists(cfg, before, n, user);
      StatusStep(cfg, Run(cfg, before), run[m], user);
    }
  }

  lemma StatusStep(cfg: Config, db: Db, e: Event, user: Id)
    requires user in db.users && !ChangesStatus(e.action, user)
    ensures user in Exec(cfg, db, e).users && Exec(cfg, db, e).users[user] == db.users[user]
  {
    hide Judge, HashFree;
  }

  // ----- idle and lifetime limits, rotation off -----

  ghost predicate Clocked(run: seq<Event>) {
    && (forall i, j :: 0 <= i <= j < |run| ==> run[i].now <= run[j].now)
    && (forall i :: 0 <= i < |run| && run[i].action.Insert? ==> run[i].action.createdAt <= run[i].now)
  }

  ghost predicate NoRotation(run: seq<Event>) {
    forall i :: 0 <= i < |run| ==> !run[i].action.Rotate?
  }

  /** When the session was last active: created, handed a new token, or accepted by a check. */
  function LastActivity(cfg: Config, run: seq<Event>, id: Id): Option<int> {
    if run == [] then None
    else
      var before, e := run[..|run| - 1], run[|run| - 1];
      var db := Run(cfg, before);
      if WriteOf(cfg, db, e).Some? && WriteOf(cfg, db, e).value.0 == id then
        Some(if e.action.Insert? then e.action.createdAt else e.now)
      else if Accepts(cfg, db, e) && e.action.id == id then Some(e.now)
      else LastActivity(cfg, before, id)
  }

  lemma ActivityStep(cfg: Config, db: Db, e: Event, id: Id)
    requires id in db.sessions && id in Exec(cfg, db, e).sessions
    requires db.sessions[id].lastActive <= e.now
    ensures var s, s' := db.sessions[id], Exec(cfg, db, e).sessions[id];
      s'.lastActive == s.lastActive ||
      (s'.lastActive == e.now &&
        ((WriteOf(cfg, db, e).Some? && WriteOf(cfg, db, e).value.0 == id && !e.action.Insert?) ||
         (Accepts(cfg, db, e) && e.action.id == id)))
  {
  }

  lemma {:induction false} ActivityIsRecorded(cfg: Config, run: seq<Event>, id: Id, now: int)
    requires Clocked(run) && (run != [] ==> run[|run| - 1].now <= now)
    requires id in Run(cfg, run).sessions
    ensures LastActivity(cfg, run, id).Some?
    ensures Run(cfg, run).sessions[id].lastActive <= LastActivity(cfg, run, id).value <= now
  {
    var before, e := run[..|run| - 1], run[|run| - 1];
    var db := Run(cfg, before);
    RowStep(cfg, db, e, id);
    if id in db.sessions {
      ActivityIsRecorded(cfg, before, id, e.now);
      ActivityStep(cfg, db, e, id);
    }
  }

  /** An accepted check is before expiry, no later than the idle limit after the session's previous
      activity, and no later than the maximum lifetime unless the session counts as remembered. */
  lemma AcceptedWithinLimits(cfg: Config, run: seq<Event>, e: Event)
    requires Clocked(run + [e]) && Accepts(cfg, Run(cfg, run), e)
    ensures var id := e.action.id; var s := Run(cfg, run).sessions[id];
      var limit := IdleLimit(cfg, s.staff, RememberMe(s));
      && e.now < s.expiresAt
      && LastActivity(cfg, run, id).Some?
      && (limit > 0 ==> e.now <= LastActivity(cfg, run, id).value + limit)
      && (cfg.maxLifetime > 0 && s.expiresAt - s.createdAt < REMEMBER_ME_SPAN ==> e.now <= s.createdAt + cfg.maxLifetime)
  {
    assert forall i :: 0 <= i < |run| ==> (run + [e])[i] == run[i];
    assert (run + [e])[|run|] == e;
    ActivityIsRecorded(cfg, run, e.action.id, e.now);
  }

  /** Without rotation the expiry, and so the limits that apply, never change. */
  lemma {:induction false} ExpiryIsFixed(cfg: Config, run: seq<Event>, n: nat, id: Id)
    requires Fresh(run) && NoRotation(run) && n <= |run|
    requires id in Run(cfg, run[..n]).sessions && id in Run(cfg, run).sessions
    ensures Run(cfg, run).sessions[id].expiresAt == Run(cfg, run[..n]).sessions[id].expiresAt
    decreases |run|
  {
    if n < |run| {
      var before := run[..|run| - 1];
      RowPersists(cfg, run, n, id);
      FreshPrefix(run, |run| - 1);
      assert before[..n] == run[..n];
      ExpiryIsFixed(cfg, before, n, id);
      RowStep(cfg, Run(cfg, before), run[|run| - 1], id);
    } else {
      assert run[..n] == run;
    }
  }

  ghost predicate TooOld(cfg: Config, s: Session, now: int) {
    !RememberMe(s) && cfg.maxLifetime > 0 && now - s.createdAt > cfg.maxLifetime
  }

  ghost predicate TooIdle(cfg: Config, s: Session, now: int) {
    var limit := IdleLimit(cfg, s.staff, RememberMe(s));
    limit > 0 && now - s.lastActive > limit
  }

  /** A session past its maximum lifetime at some point is never accepted again, even if the revoking
      write is lost and however many new tokens are issued for it. */
  lemma AgeRefusalIsFinal(cfg: Config, run: seq<Event>, n: nat, id: Id, at: int, e: Event)
    requires Fresh(run) && NoRotation(run) && n <= |run|
    requires id in Run(cfg, run[..n]).sessions && TooOld(cfg, Run(cfg, run[..n]).sessions[id], at)
    requires at <= e.now && e.action.Check? && e.action.id == id
    ensures !Accepts(cfg, Run(cfg, run), e)
  {
    if id in Run(cfg, run).sessions {
      RowConstants(cfg, run, n, id);
      ExpiryIsFixed(cfg, run, n, id);
    }
  }

  ghost predicate NoIssueAfter(run: seq<Event>, n: nat, id: Id) {
    forall i :: n <= i < |run| && run[i].action.Issue? ==> run[i].action.id != id
  }

  lemma {:induction false} IdleStaysIdle(cfg: Config, run: seq<Event>, n: nat, id: Id, at: int)
    requires Fresh(run) && NoRotation(run) && n <= |run| && NoIssueAfter(run, n, id)
    requires forall i :: n <= i < |run| ==> at <= run[i].now
    requires id in Run(cfg, run[..n]).sessions && TooIdle(cfg, Run(cfg, run[..n]).sessions[id], at)
    requires id in Run(cfg, run).sessions
    ensures TooIdle(cfg, Run(cfg, run).sessions[id], at)
    decreases |run|
  {
    if n < |run| {
      var before, e := run[..|run| - 1], run[|run| - 1];
      RowPersists(cfg, run, n, id);
      FreshPrefix(run, |run| - 1);
      assert before[..n] == run[..n];
      assert forall i :: 0 <= i < |before| ==> before[i] == run[i];
      IdleStaysIdle(cfg, before, n, id, at);
      IdleStep(cfg, Run(cfg, before), e, id, at);
    } else {
      assert run[..n] == run;
    }
  }

  lemma IdleStep(cfg: Config, db: Db, e: Event, id: Id, at: int)
    requires id in db.sessions && TooIdle(cfg, db.sessions[id], at) && at <= e.now
    requires !e.action.Rotate? && !(e.action.Issue? && e.action.id == id)
    requires id in Exec(cfg, db, e).sessions
    ensures TooIdle(cfg, Exec(cfg, db, e).sessions[id], at)
  {
  }

  /** A session found idle is never accepted again unless a code exchange issues it a new token. */
  lemma IdleRefusalLasts(cfg: Config, run: seq<Event>, n: nat, id: Id, at: int, e: Event)
    requires Fresh(run) && NoRotation(run) && n <= |run| && NoIssueAfter(run, n, id)
    requires forall i :: n <= i < |run| ==> at <= run[i].now
    requires id in Run(cfg, run[..n]).sessions && TooIdle(cfg, Run(cfg, run[..n]).sessions[id], at)
    requires at <= e.now && e.action.Check? && e.action.id == id
    ensures !Accepts(cfg, Run(cfg, run), e)
  {
    if id in Run(cfg, run).sessions {
      IdleStaysIdle(cfg, run, n, id, at);
    }
  }

  /** When the refusing check's own revocation took effect the refusal is final, new tokens included. */
  lemma RefusalIsFinal(cfg: Config, run: seq<Event>, n: nat, e: Event)
    requires Fresh(run) && n < |run| && run[n].action.Check? && run[n].action.wrote
    requires IsBearer(Run(cfg, run[..n]).sessions, run[n].action.hash, run[n].now, run[n].action.id)
    requires !Accepts(cfg, Run(cfg, run[..n]), run[n])
    requires e.action.Check? && e.action.id == run[n].action.id
    ensures !Accepts(cfg, Run(cfg, run), e)
  {
    assert run[..n + 1][..n] == run[..n];
    assert Run(cfg, run[..n + 1]) == Exec(cfg, Run(cfg, run[..n]), run[n]);
    if e.action.id in Run(cfg, run).sessions {
      RowConstants(cfg, run, n + 1, e.action.id);
    }
  }

  // ----- where a refusal does not last -----

  /** In the state after `run` the check `e` finds the session idle and refuses it, its revoking write is
      lost, a code exchange issues the session a new token, and the check `e'` accepts that token. */
  ghost predicate RevivedByIssue(cfg: Config, run: seq<Event>, db: Db, e: Event, e': Event) {
    && Reached(cfg, run, db) && e.action.Check? && e'.action.Check? && e.now == e'.now && e.action.id == e'.action.id
    && IsBearer(db.sessions, e.action.hash, e.now, e.action.id) && TooIdle(cfg, db.sessions[e.action.id], e.now)
    && !Accepts(cfg, db, e)
    && Accepts(cfg, Exec(cfg, Exec(cfg, db, e), Event(Issue(e.action.id, e'.action.hash), e.now)), e')
  }

  /** The exception in `IdleRefusalLasts` is real for every idle limit a session can run into. */
  lemma IssueRevivesAnIdleSession(cfg: Config)
    requires 0 < cfg.idle && cfg.idle + 3 < REMEMBER_ME_SPAN && (cfg.maxLifetime > 0 ==> cfg.idle < cfg.maxLifetime)
    ensures exists run, db, e, e' :: RevivedByIssue(cfg, run, db, e, e')
  {
    var at := cfg.idle + 1;
    var run, db := OneSession(cfg, at + 2);
    hide Reached;
    var e, e' := Event(Check(0, Sha256("a"), true, false), at), Event(Check(0, Sha256("b"), true, true), at);
    var issued := Exec(cfg, Exec(cfg, db, e), Event(Issue(0, Sha256("b")), at));
    assert issued.sessions == map[0 := db.sessions[0].(tokenHash := Sha256("b"), lastActive := at)];
    assert Accepts(cfg, issued, e');
    assert RevivedByIssue(cfg, run, db, e, e');
  }

  /** One user with one session, created at 0. */
  lemma OneSession(cfg: Config, expiresAt: int) returns (run: seq<Event>, db: Db)
    ensures Reached(cfg, run, db)
    ensures db == Db(map[0 := User(Active, false)], map[0 := Session(0, Sha256("a"), 0, expiresAt, 0, false, false, false)])
  {
    var add, insert := Event(AddUser(0), 0), Event(Insert(0, 0, Sha256("a"), 0, expiresAt, false), 0);
    run := [add, insert];
    db := Db(map[0 := User(Active, false)], map[0 := Session(0, Sha256("a"), 0, expiresAt, 0, false, false, false)]);
    assert run[..1] == [add] && run[..1][..0] == [];
    assert Run(cfg, run) == db by {
      assert Run(cfg, []) == EMPTY;
      assert Run(cfg, run[..1]) == Exec(cfg, EMPTY, add);
    }
    ReachedIsRun(cfg, run, db);
  }

  // ----- the MFA flag -----

  /** What the flag of the session was last set to since its row is there; a new row is not pending. */
  function LastFlag(cfg: Config, run: seq<Event>, id: Id): bool {
    if run == [] || id !in Run(cfg, run[..|run| - 1]).sessions then false
    else
      var a := run[|run| - 1].action;
      if a.SetMfa? && a.id == id then a.pending else LastFlag(cfg, run[..|run| - 1], id)
  }

  lemma FlagStep(cfg: Config, db: Db, e: Event, id: Id)
    requires id in Exec(cfg, db, e).sessions
    ensures Exec(cfg, db, e).sessions[id].mfaPending ==
      if id !in db.sessions then false
      else if e.action.SetMfa? && e.action.id == id then e.action.pending else db.sessions[id].mfaPending
  {
    hide Judge, HashFree;
  }

  /** A session is pending exactly when its flag was set last: no rotation, issue, check or revocation
      clears or sets it. */
  lemma {:induction false} PendingIsLastFlag(cfg: Config, run: seq<Event>, id: Id)
    requires id in Run(cfg, run).sessions
    ensures Run(cfg, run).sessions[id].mfaPending == LastFlag(cfg, run, id)
  {
    var before, e := run[..|run| - 1], run[|run| - 1];
    FlagStep(cfg, Run(cfg, before), e, id);
    if id in Run(cfg, before).sessions {
      PendingIsLastFlag(cfg, before, id);
    }
    hide Exec;
  }
}
