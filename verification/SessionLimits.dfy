/** When the idle and age limits survive token rotation, exactly. Rotation moves the expiry but not the
    creation time, and the check takes a session for a remembered one by their difference. */
module SessionLimits {
  import opened Prelude
  import opened Sessions
  import opened SessionRuns

  // ----- runs in which rotation happens as the session gate does it -----

  /** Rotation `i` follows an accepted check of the same session at the same instant, not before the
      rotation interval is over, and gives the configured lifetime from that instant. */
  ghost predicate RotationAllowed(cfg: Config, run: seq<Event>, i: nat, j: nat)
    requires j < i < |run| && run[i].action.Rotate?
  {
    var id := run[i].action.id;
    && run[j].action.Check? && run[j].action.id == id && run[j].now == run[i].now
    && Accepts(cfg, Run(cfg, run[..j]), run[j])
    && 0 < cfg.rotateInterval <= run[i].now - Run(cfg, run[..j]).sessions[id].createdAt
    && run[i].action.expiresAt == run[i].now + cfg.ttl
  }

  ghost predicate RotatesByTheGate(cfg: Config, run: seq<Event>) {
    forall i :: 0 <= i < |run| && run[i].action.Rotate? ==> exists j :: 0 <= j < i && RotationAllowed(cfg, run, i, j)
  }

  /** The session is created with the given lifetime. */
  ghost predicate CreatedFor(run: seq<Event>, id: Id, life: int) {
    forall i :: 0 <= i < |run| && run[i].action.Insert? && run[i].action.id == id ==>
      run[i].action.expiresAt == run[i].action.createdAt + life
  }

  ghost predicate Disciplined(cfg: Config, run: seq<Event>, id: Id, life: int) {
    Fresh(run) && Clocked(run) && RotatesByTheGate(cfg, run) && CreatedFor(run, id, life)
  }

  lemma DisciplinedPrefix(cfg: Config, run: seq<Event>, id: Id, life: int, n: nat)
    requires Disciplined(cfg, run, id, life) && n <= |run|
    ensures Disciplined(cfg, run[..n], id, life)
  {
    var before := run[..n];
    forall i | 0 <= i < |before| && before[i].action.Rotate?
      ensures exists j :: 0 <= j < i && RotationAllowed(cfg, before, i, j)
    {
      var j :| 0 <= j < i && RotationAllowed(cfg, run, i, j);
      assert before[..j] == run[..j];
      assert RotationAllowed(cfg, before, i, j);
    }
    hide RotationAllowed;
  }

  /** Some session created with the lifetime is accepted although older than the maximum lifetime. */
  ghost predicate AcceptedTooOld(cfg: Config, life: int, run: seq<Event>, e: Event) {
    && e.action.Check? && Disciplined(cfg, run, e.action.id, life) && Clocked(run + [e])
    && Accepts(cfg, Run(cfg, run), e)
    && e.now > Run(cfg, run).sessions[e.action.id].createdAt + cfg.maxLifetime
  }

  /** Some session of an ordinary user, created with the lifetime, is accepted although idle too long. */
  ghost predicate AcceptedTooIdle(cfg: Config, life: int, run: seq<Event>, e: Event) {
    && e.action.Check? && Disciplined(cfg, run, e.action.id, life) && Clocked(run + [e])
    && Accepts(cfg, Run(cfg, run), e) && !Run(cfg, run).sessions[e.action.id].staff
    && e.now > Run(cfg, run).sessions[e.action.id].lastActive + cfg.idle
  }

  // ----- the conditions, on the configuration and the lifetime asked for -----

  /** A rotation can happen while the session still counts as an ordinary one. */
  predicate RotatesInTime(cfg: Config, life: int) {
    0 < cfg.rotateInterval < life && (cfg.maxLifetime > 0 ==> cfg.rotateInterval <= cfg.maxLifetime)
  }

  /** The latest such rotation pushes the expiry out to where the session counts as remembered. */
  predicate BecomesRemembered(cfg: Config) {
    cfg.maxLifetime > 0 ==> cfg.maxLifetime + cfg.ttl >= REMEMBER_ME_SPAN
  }

  predicate AgeLimitGives(cfg: Config, life: int) {
    cfg.ttl >= 2 && RotatesInTime(cfg, life) && BecomesRemembered(cfg)
  }

  predicate IdleLimitGives(cfg: Config, life: int) {
    cfg.ttl >= cfg.idle + 2 && RotatesInTime(cfg, life) && BecomesRemembered(cfg)
  }

  // ----- when the condition fails, the limit holds -----

  /** What the failing condition keeps of a row. */
  ghost predicate AgeKept(cfg: Config, life: int, s: Session) {
    if cfg.ttl < 2 then !RememberMe(s) || s.expiresAt <= s.createdAt + cfg.maxLifetime + 1
    else if !RotatesInTime(cfg, life) then s.expiresAt == s.createdAt + life
    else !RememberMe(s)
  }

  /** A row that is accepted, if its age is kept, is within the maximum lifetime. */
  lemma AcceptedWithinAge(cfg: Config, life: int, db: Db, e: Event)
    requires cfg.maxLifetime > 0 && 0 < life < REMEMBER_ME_SPAN && Accepts(cfg, db, e)
    requires AgeKept(cfg, life, db.sessions[e.action.id])
    ensures e.now <= db.sessions[e.action.id].createdAt + cfg.maxLifetime
  {
  }

  lemma RotationKeepsAge(cfg: Config, life: int, s: Session, t: int, s': Session)
    requires cfg.maxLifetime > 0 && 0 < life < REMEMBER_ME_SPAN && !AgeLimitGives(cfg, life) && AgeKept(cfg, life, s)
    requires s.expiresAt > t && t <= s.createdAt + cfg.maxLifetime && 0 < cfg.rotateInterval <= t - s.createdAt
    requires s'.createdAt == s.createdAt && s'.expiresAt == t + cfg.ttl
    ensures AgeKept(cfg, life, s')
  {
  }

  lemma {:induction false} AgeIsKept(cfg: Config, run: seq<Event>, id: Id, life: int)
    requires cfg.maxLifetime > 0 && 0 < life < REMEMBER_ME_SPAN && !AgeLimitGives(cfg, life)
    requires Disciplined(cfg, run, id, life) && id in Run(cfg, run).sessions
    ensures AgeKept(cfg, life, Run(cfg, run).sessions[id])
    decreases |run|
  {
    var n := |run| - 1;
    var before, e := run[..n], run[n];
    var db := Run(cfg, before);
    DisciplinedPrefix(cfg, run, id, life, n);
    RowStep(cfg, db, e, id);
    if id in db.sessions {
      AgeIsKept(cfg, before, id, life);
      if e.action.Rotate? && e.action.id == id && Run(cfg, run).sessions[id].expiresAt != db.sessions[id].expiresAt {
        var j :| 0 <= j < n && RotationAllowed(cfg, run, n, j);
        DisciplinedPrefix(cfg, run, id, life, j);
        AgeIsKept(cfg, run[..j], id, life);
        AcceptedWithinAge(cfg, life, Run(cfg, run[..j]), run[j]);
        RowConstants(cfg, run, j, id);
        RotationKeepsAge(cfg, life, Run(cfg, run[..j]).sessions[id], e.now, Run(cfg, run).sessions[id]);
      }
    }
  }

  ghost predicate IdleKept(cfg: Config, life: int, s: Session) {
    if cfg.ttl < cfg.idle + 2 then !RememberMe(s) || s.expiresAt <= s.lastActive + cfg.idle + 1
    else if !RotatesInTime(cfg, life) then s.expiresAt == s.createdAt + life
    else !RememberMe(s)
  }

  lemma RotationKeepsIdle(cfg: Config, life: int, s: Session, t: int, s': Session)
    requires cfg.idle > 0 && 0 < life < REMEMBER_ME_SPAN && !IdleLimitGives(cfg, life) && IdleKept(cfg, life, s)
    requires s.expiresAt > t && (!RememberMe(s) && cfg.maxLifetime > 0 ==> t <= s.createdAt + cfg.maxLifetime)
    requires 0 < cfg.rotateInterval <= t - s.createdAt
    requires s'.createdAt == s.createdAt && s'.expiresAt == t + cfg.ttl && s'.lastActive == t
    ensures IdleKept(cfg, life, s')
  {
  }

  /** Activity only moves forward, so what is kept of an unrotated row stays kept. */
  lemma ActivityKeepsIdle(cfg: Config, life: int, s: Session, s': Session)
    requires IdleKept(cfg, life, s) && s'.createdAt == s.createdAt && s'.expiresAt == s.expiresAt && s'.lastActive >= s.lastActive
    ensures IdleKept(cfg, life, s')
  {
  }

  lemma EffectiveRotation(cfg: Config, db: Db, e: Event, id: Id)
    requires id in db.sessions && id in Exec(cfg, db, e).sessions && db.sessions[id].lastActive <= e.now
    ensures var s, s' := db.sessions[id], Exec(cfg, db, e).sessions[id];
      if e.action.Rotate? && e.action.id == id && s' != s then s'.expiresAt == e.action.expiresAt && s'.lastActive == e.now
      else s'.lastActive >= s.lastActive && s'.expiresAt == s.expiresAt
  {
    hide HashFree, Judge;
  }

  lemma {:induction false} IdleIsKept(cfg: Config, run: seq<Event>, id: Id, life: int)
    requires cfg.idle > 0 && 0 < life < REMEMBER_ME_SPAN && !IdleLimitGives(cfg, life)
    requires Disciplined(cfg, run, id, life) && id in Run(cfg, run).sessions
    ensures IdleKept(cfg, life, Run(cfg, run).sessions[id])
    decreases |run|
  {
    var n := |run| - 1;
    var before, e := run[..n], run[n];
    var db := Run(cfg, before);
    DisciplinedPrefix(cfg, run, id, life, n);
    RowStep(cfg, db, e, id);
    if id in db.sessions {
      IdleIsKept(cfg, before, id, life);
      ActivityIsRecorded(cfg, before, id, e.now);
      EffectiveRotation(cfg, db, e, id);
      if e.action.Rotate? && e.action.id == id && Run(cfg, run).sessions[id] != db.sessions[id] {
        var j :| 0 <= j < n && RotationAllowed(cfg, run, n, j);
        DisciplinedPrefix(cfg, run, id, life, j);
        IdleIsKept(cfg, run[..j], id, life);
        RowConstants(cfg, run, j, id);
        RotationKeepsIdle(cfg, life, Run(cfg, run[..j]).sessions[id], e.now, Run(cfg, run).sessions[id]);
      } else {
        hide Exec;
        ActivityKeepsIdle(cfg, life, db.sessions[id], Run(cfg, run).sessions[id]);
      }
    }
  }

  // ----- when the condition holds, a run gets past the limit -----

  /** The `n`-th secret. */
  function Nth(n: nat): Digest {
    Sha256(seq(n, i => 'a'))
  }

  function Bearer(cfg: Config, n: nat): Digest {
    Nth(if n >= cfg.rotateInterval then n else 0)
  }

  function Expiry(cfg: Config, life: int, n: nat): int {
    if n >= cfg.rotateInterval then n + cfg.ttl else life
  }

  /** A request at every instant up to `n`, each rotating the token once the interval is over. */
  function Busy(cfg: Config, life: int, n: nat): seq<Event> {
    if n == 0 then [Event(AddUser(0), 0), Event(Insert(0, 0, Nth(0), 0, life, false), 0)]
    else
      Busy(cfg, life, n - 1) + [Event(Check(0, Bearer(cfg, n - 1), true, true), n)]
      + (if n >= cfg.rotateInterval then [Event(Rotate(0, Nth(n), n + cfg.ttl), n)] else [])
  }

  function BusyDb(cfg: Config, life: int, n: nat): Db {
    Db(map[0 := User(Active, false)],
       map[0 := Session(0, Bearer(cfg, n), 0, Expiry(cfg, life, n), n, false, false, false)])
  }

  /** The session stays acceptable all the way: never expired, never idle, never too old. */
  predicate StaysAlive(cfg: Config, life: int, n: nat) {
    && 0 < cfg.rotateInterval < life && cfg.ttl >= 2 && (cfg.maxLifetime > 0 ==> n <= cfg.maxLifetime)
  }

  lemma BusyCheck(cfg: Config, life: int, n: nat)
    requires n > 0 && StaysAlive(cfg, life, n)
    ensures var db := BusyDb(cfg, life, n - 1); var e := Event(Check(0, Bearer(cfg, n - 1), true, true), n);
      && Accepts(cfg, db, e)
      && Exec(cfg, db, e) == db.(sessions := map[0 := db.sessions[0].(lastActive := n)])
  {
    hide Nth;
  }

  lemma BusyRotate(cfg: Config, life: int, n: nat)
    requires n > 0 && n >= cfg.rotateInterval && StaysAlive(cfg, life, n)
    ensures var db := BusyDb(cfg, life, n - 1);
      Exec(cfg, db.(sessions := map[0 := db.sessions[0].(lastActive := n)]), Event(Rotate(0, Nth(n), n + cfg.ttl), n)) == BusyDb(cfg, life, n)
  {
    hide Nth;
  }

  lemma {:induction false} RunBusy(cfg: Config, life: int, n: nat)
    requires StaysAlive(cfg, life, n)
    ensures Run(cfg, Busy(cfg, life, n)) == BusyDb(cfg, life, n)
  {
    if n == 0 {
      StartBusy(cfg, life);
    } else {
      var before, check := Busy(cfg, life, n - 1), Event(Check(0, Bearer(cfg, n - 1), true, true), n);
      RunBusy(cfg, life, n - 1);
      BusyCheck(cfg, life, n);
      RunSnoc(cfg, before, check);
      if n >= cfg.rotateInterval {
        BusyRotate(cfg, life, n);
        RunSnoc(cfg, before + [check], Event(Rotate(0, Nth(n), n + cfg.ttl), n));
      } else {
        assert Busy(cfg, life, n) == before + [check];
      }
      hide Run, Exec, Accepts, Nth;
    }
  }

  lemma StartBusy(cfg: Config, life: int)
    requires StaysAlive(cfg, life, 0)
    ensures Run(cfg, Busy(cfg, life, 0)) == BusyDb(cfg, life, 0)
  {
    var run := Busy(cfg, life, 0);
    assert run == [] + [run[0]] + [run[1]];
    RunSnoc(cfg, [], run[0]);
    RunSnoc(cfg, [] + [run[0]], run[1]);
    assert Run(cfg, []) == EMPTY;
    hide Run, Nth;
  }

  lemma RunSnoc(cfg: Config, run: seq<Event>, e: Event)
    ensures Run(cfg, run + [e]) == Exec(cfg, Run(cfg, run), e)
  {
    assert (run + [e])[..|run|] == run;
    hide Exec;
  }

  /** Up to instant `n` and the `n`-th secret. */
  ghost predicate UpTo(run: seq<Event>, n: nat) {
    forall i :: 0 <= i < |run| ==>
      0 <= run[i].now <= n && (Drawn(run[i].action).Some? ==> |Drawn(run[i].action).value.preimage| <= n)
  }

  /** One more event that draws nothing old and creates nothing. */
  lemma OneMore(cfg: Config, run: seq<Event>, e: Event, id: Id, life: int, n: nat)
    requires Disciplined(cfg, run, id, life) && UpTo(run, n) && n <= e.now && !e.action.Insert?
    requires Drawn(e.action).Some? ==> forall i :: 0 <= i < |run| ==> Drawn(run[i].action) != Drawn(e.action)
    requires e.action.Rotate? ==> exists j :: 0 <= j < |run| && RotationAllowed(cfg, run + [e], |run|, j)
    ensures Disciplined(cfg, run + [e], id, life)
  {
    var all := run + [e];
    hide RotationAllowed;
    assert forall i :: 0 <= i < |run| ==> all[i] == run[i];
    assert all[|run|] == e;
    assert RotatesByTheGate(cfg, all) by {
      StillByTheGate(cfg, run, e);
    }
  }

  lemma StillByTheGate(cfg: Config, run: seq<Event>, e: Event)
    requires RotatesByTheGate(cfg, run)
    requires e.action.Rotate? ==> exists j :: 0 <= j < |run| && RotationAllowed(cfg, run + [e], |run|, j)
    ensures RotatesByTheGate(cfg, run + [e])
  {
    var all := run + [e];
    forall i | 0 <= i < |all| && all[i].action.Rotate? ensures exists j :: 0 <= j < i && RotationAllowed(cfg, all, i, j) {
      if i < |run| {
        assert all[i] == run[i];
        var j :| 0 <= j < i && RotationAllowed(cfg, run, i, j);
        assert all[..j] == run[..j];
        assert RotationAllowed(cfg, all, i, j);
      }
    }
    hide RotationAllowed;
  }

  lemma BusyStartsDisciplined(cfg: Config, life: int)
    ensures Disciplined(cfg, Busy(cfg, life, 0), 0, life) && UpTo(Busy(cfg, life, 0), 0)
  {
    hide Run, RotationAllowed;
    assert |Nth(0).preimage| == 0;
  }

  lemma MoreUpTo(run: seq<Event>, e: Event, n: nat, m: nat)
    requires UpTo(run, n) && n <= m && 0 <= e.now <= m && (Drawn(e.action).Some? ==> |Drawn(e.action).value.preimage| <= m)
    ensures UpTo(run + [e], m)
  {
  }

  lemma {:induction false} BusyIsDisciplined(cfg: Config, life: int, n: nat)
    requires StaysAlive(cfg, life, n)
    ensures Disciplined(cfg, Busy(cfg, life, n), 0, life) && UpTo(Busy(cfg, life, n), n)
  {
    hide Busy, Run, Exec, Accepts, Nth, Disciplined, RotationAllowed, UpTo;
    if n == 0 {
      BusyStartsDisciplined(cfg, life);
    } else {
      var before, check := Busy(cfg, life, n - 1), Event(Check(0, Bearer(cfg, n - 1), true, true), n);
      BusyIsDisciplined(cfg, life, n - 1);
      UpToBounds(before, n - 1);
      OneMore(cfg, before, check, 0, life, n - 1);
      MoreUpTo(before, check, n - 1, n);
      if n >= cfg.rotateInterval {
        BusyRotationAllowed(cfg, life, n);
        FreshSecret(before + [check], n);
        OneMore(cfg, before + [check], Event(Rotate(0, Nth(n), n + cfg.ttl), n), 0, life, n);
        MoreUpTo(before + [check], Event(Rotate(0, Nth(n), n + cfg.ttl), n), n, n);
      }
      BusyUnfolds(cfg, life, n);
    }
  }

  lemma UpToBounds(run: seq<Event>, n: nat)
    requires UpTo(run, n)
    ensures forall i :: 0 <= i < |run| ==> Drawn(run[i].action).Some? ==> |Drawn(run[i].action).value.preimage| < n + 1
  {
  }

  lemma BusyUnfolds(cfg: Config, life: int, n: nat)
    requires n > 0
    ensures var before := Busy(cfg, life, n - 1) + [Event(Check(0, Bearer(cfg, n - 1), true, true), n)];
      Busy(cfg, life, n) == if n >= cfg.rotateInterval then before + [Event(Rotate(0, Nth(n), n + cfg.ttl), n)] else before
    ensures |Nth(n).preimage| == n
  {
  }

  lemma FreshSecret(run: seq<Event>, n: nat)
    requires n > 0 && forall i :: 0 <= i < |run| ==> Drawn(run[i].action).Some? ==> |Drawn(run[i].action).value.preimage| < n
    ensures forall i :: 0 <= i < |run| ==> Drawn(run[i].action) != Some(Nth(n))
    ensures |Nth(n).preimage| == n
  {
  }

  lemma BusyRotationAllowed(cfg: Config, life: int, n: nat)
    requires n > 0 && n >= cfg.rotateInterval && StaysAlive(cfg, life, n)
    ensures var before := Busy(cfg, life, n - 1) + [Event(Check(0, Bearer(cfg, n - 1), true, true), n)];
      RotationAllowed(cfg, before + [Event(Rotate(0, Nth(n), n + cfg.ttl), n)], |before|, |before| - 1)
  {
    var quiet := Busy(cfg, life, n - 1);
    var check := Event(Check(0, Bearer(cfg, n - 1), true, true), n);
    var all := quiet + [check] + [Event(Rotate(0, Nth(n), n + cfg.ttl), n)];
    RunBusy(cfg, life, n - 1);
    BusyCheck(cfg, life, n);
    assert all[..|quiet|] == quiet && all[|quiet|] == check;
    hide Run, Busy, Accepts, Nth;
  }

  // ----- main results -----

  /** One last request, past the limit. */
  function LastRequest(cfg: Config, n: nat, at: int): Event {
    Event(Check(0, Bearer(cfg, n), true, true), at)
  }

  lemma LastIsClocked(cfg: Config, life: int, n: nat, at: int)
    requires Disciplined(cfg, Busy(cfg, life, n), 0, life) && UpTo(Busy(cfg, life, n), n) && n <= at
    ensures Clocked(Busy(cfg, life, n) + [LastRequest(cfg, n, at)])
  {
    var run := Busy(cfg, life, n);
    hide Busy, RotatesByTheGate;
    var all := run + [LastRequest(cfg, n, at)];
    assert forall i :: 0 <= i < |run| ==> all[i] == run[i];
  }

  /** The age limit gives way for sessions asked for with this lifetime, in some run where rotation
      happens as the gate does it, exactly when the configuration says so. */
  lemma AgeLimitGivesIff(cfg: Config, life: int)
    requires cfg.maxLifetime > 0 && 0 < life < REMEMBER_ME_SPAN
    ensures (exists run, e :: AcceptedTooOld(cfg, life, run, e)) <==> AgeLimitGives(cfg, life)
  {
    if AgeLimitGives(cfg, life) {
      var n := cfg.maxLifetime;
      var run, e := Busy(cfg, life, n), LastRequest(cfg, n, n + 1);
      RunBusy(cfg, life, n);
      BusyIsDisciplined(cfg, life, n);
      LastIsClocked(cfg, life, n, n + 1);
      hide Run, Busy, Disciplined, Nth;
      assert AcceptedTooOld(cfg, life, run, e);
    } else {
      forall run, e ensures !AcceptedTooOld(cfg, life, run, e) {
        if AcceptedTooOld(cfg, life, run, e) {
          AgeIsKept(cfg, run, e.action.id, life);
          AcceptedWithinAge(cfg, life, Run(cfg, run), e);
        }
      }
    }
    hide AcceptedTooOld;
  }

  lemma IdleIsPassed(cfg: Config, life: int, n: nat)
    requires cfg.idle > 0 && 0 < life < REMEMBER_ME_SPAN && IdleLimitGives(cfg, life)
    requires n == if cfg.maxLifetime > 0 then cfg.maxLifetime else life + REMEMBER_ME_SPAN
    ensures exists run, e :: AcceptedTooIdle(cfg, life, run, e)
  {
    var run, e := Busy(cfg, life, n), LastRequest(cfg, n, n + cfg.idle + 1);
    BusyCanEndIdle(cfg, life, n);
    RememberedIsNeverIdle(cfg, life, n);
    hide Run, Busy, Disciplined, Nth, Clocked, Accepts, IdleLimitGives;
    assert AcceptedTooIdle(cfg, life, run, e);
  }

  lemma BusyCanEndIdle(cfg: Config, life: int, n: nat)
    requires cfg.idle > 0 && StaysAlive(cfg, life, n)
    ensures Run(cfg, Busy(cfg, life, n)) == BusyDb(cfg, life, n) && Disciplined(cfg, Busy(cfg, life, n), 0, life)
    ensures Clocked(Busy(cfg, life, n) + [LastRequest(cfg, n, n + cfg.idle + 1)])
  {
    hide StaysAlive, Run, Busy, BusyDb, Disciplined, Nth, Clocked, UpTo, LastRequest;
    RunBusy(cfg, life, n);
    BusyIsDisciplined(cfg, life, n);
    LastIsClocked(cfg, life, n, n + cfg.idle + 1);
  }

  lemma RememberedIsNeverIdle(cfg: Config, life: int, n: nat)
    requires cfg.idle > 0 && 0 < life < REMEMBER_ME_SPAN && IdleLimitGives(cfg, life)
    requires n == if cfg.maxLifetime > 0 then cfg.maxLifetime else life + REMEMBER_ME_SPAN
    ensures Accepts(cfg, BusyDb(cfg, life, n), LastRequest(cfg, n, n + cfg.idle + 1))
  {
    hide Nth;
  }

  /** The same for the idle limit of ordinary users, with or without a maximum lifetime. */
  lemma IdleLimitGivesIff(cfg: Config, life: int)
    requires cfg.idle > 0 && 0 < life < REMEMBER_ME_SPAN
    ensures (exists run, e :: AcceptedTooIdle(cfg, life, run, e)) <==> IdleLimitGives(cfg, life)
  {
    if IdleLimitGives(cfg, life) {
      var n := if cfg.maxLifetime > 0 then cfg.maxLifetime else life + REMEMBER_ME_SPAN;
      IdleIsPassed(cfg, life, n);
    } else {
      forall run, e ensures !AcceptedTooIdle(cfg, life, run, e) {
        if AcceptedTooIdle(cfg, life, run, e) {
          IdleIsKept(cfg, run, e.action.id, life);
        }
      }
    }
    hide AcceptedTooIdle;
  }
}
