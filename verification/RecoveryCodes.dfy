/** Each recovery code completes at most one MFA challenge, in every interleaving. */
module RecoveryCodes {
  import opened Prelude
  import Sessions
  import opened MfaGate

  predicate HoldsCode(p: Proc, h: Digest) {
    p.Clearing? && p.spent == Some(h)
  }

  predicate RecordsCode(m: Mark, h: Digest) {
    m.Challenged? && m.spent == Some(h)
  }

  /** Stored codes are distinct generated secrets. */
  ghost predicate CodesDistinct(w: World) {
    && (forall c :: c in w.codes ==> w.codes[c].hash.preimage in w.drawn)
    && (forall c, d :: c in w.codes && d in w.codes && c != d ==> w.codes[c].hash != w.codes[d].hash)
  }

  /** A code some challenge has already taken can no longer be spent or taken twice. */
  ghost predicate TakenOnce(w: World) {
    && (forall p, h :: p in w.procs && HoldsCode(w.procs[p], h) ==> Spent(w, h))
    && (forall i, h :: 0 <= i < |w.log| && RecordsCode(w.log[i], h) ==> Spent(w, h))
    && (forall p, q, h :: p in w.procs && q in w.procs && HoldsCode(w.procs[p], h) && HoldsCode(w.procs[q], h) ==> p == q)
    && (forall p, i, h :: p in w.procs && HoldsCode(w.procs[p], h) && 0 <= i < |w.log| ==> !RecordsCode(w.log[i], h))
    && (forall i, j, h :: 0 <= i < j < |w.log| && RecordsCode(w.log[i], h) ==> !RecordsCode(w.log[j], h))
  }

  predicate Spent(w: World, h: Digest) {
    h.preimage in w.drawn && forall c :: c in w.codes && w.codes[c].hash == h ==> w.codes[c].used
  }

  ghost predicate CodeInv(w: World) {
    CodesDistinct(w) && TakenOnce(w)
  }

  /** A change that takes no code: requests holding a code are unchanged or gone, and nothing about a
      code is recorded. */
  ghost predicate TakesNoCode(w: World, w': World) {
    && w'.codes == w.codes && w'.drawn >= w.drawn
    && (forall p :: p in w'.procs && w'.procs[p].Clearing? && w'.procs[p].spent.Some? ==> p in w.procs && w.procs[p] == w'.procs[p])
    && (w'.log == w.log || (|w'.log| == |w.log| + 1 && w'.log[..|w.log|] == w.log && NoCodeRecorded(w'.log[|w.log|])))
  }

  predicate NoCodeRecorded(m: Mark) {
    m.Challenged? ==> m.spent.None?
  }

  lemma TakesNoCodeKeepsInv(w: World, w': World)
    requires CodeInv(w) && TakesNoCode(w, w')
    ensures CodeInv(w')
  {
    assert forall h :: Spent(w, h) ==> Spent(w', h);
    forall i | 0 <= i < |w'.log| ensures i < |w.log| ==> w'.log[i] == w.log[i] {
      if i < |w.log| {
        assert w'.log[..|w.log|][i] == w.log[i];
      }
    }
    assert |w'.log| > |w.log| ==> forall h :: !RecordsCode(w'.log[|w.log|], h);
    assert forall i, h :: 0 <= i < |w'.log| && RecordsCode(w'.log[i], h) ==> i < |w.log| && RecordsCode(w.log[i], h);
    assert TakenOnce(w');
  }

  lemma SpendKeepsInv(w: World, pid: nat, hash: Digest)
    requires CodeInv(w) && pid in w.procs && w.procs[pid].Proving? && Spendable(w, w.procs[pid].user, hash)
    ensures CodeInv(DoProveRecovery(w, pid, hash))
  {
    var w' := DoProveRecovery(w, pid, hash);
    var c :| c in w.codes && w.codes[c] == RecoveryCode(w.procs[pid].user, hash, false);
    assert !Spent(w, hash);
    assert forall h :: Spent(w, h) ==> Spent(w', h);
    assert Spent(w', hash);
    assert CodesDistinct(w');
    assert TakenOnce(w');
  }

  lemma ClearKeepsCodeInv(w: World, pid: nat, ok: bool)
    requires CodeInv(w)
    ensures CodeInv(DoClear(w, pid, ok))
  {
    if ok && pid in w.procs && w.procs[pid].Clearing? {
      var w' := DoClear(w, pid, ok);
      assert forall h :: Spent(w, h) ==> Spent(w', h);
      assert forall i :: 0 <= i < |w.log| ==> w'.log[i] == w.log[i];
      forall h | RecordsCode(w'.log[|w.log|], h) ensures HoldsCode(w.procs[pid], h) {
      }
      assert TakenOnce(w');
    } else {
      TakesNoCodeKeepsInv(w, DoClear(w, pid, ok));
    }
  }

  lemma NewCodesKeepInv(w: World, user: Sessions.Id, base: nat, batch: seq<string>)
    requires CodeInv(w) && FreshBatch(w, base, batch)
    ensures CodeInv(DoNewCodes(w, user, base, batch))
  {
    var w' := DoNewCodes(w, user, base, batch);
    var rows := BatchRows(user, base, batch);
    assert CodesDistinct(w') by {
      forall c | c in w'.codes ensures w'.codes[c].hash.preimage in w'.drawn {
        if c in rows {
          assert batch[c - base] in batch;
        }
      }
      forall c, d | c in w'.codes && d in w'.codes && c != d ensures w'.codes[c].hash != w'.codes[d].hash {
        if c in rows && d in rows {
          assert batch[c - base] != batch[d - base];
        }
      }
    }
    assert forall h :: Spent(w, h) ==> Spent(w', h);
    assert TakenOnce(w');
  }

  lemma HandOutTakesNoCode(w: World, pid: nat, mfa: bool, disclose: bool)
    requires pid in w.procs && w.procs[pid].SignIn?
    ensures TakesNoCode(w, HandOut(w, pid, mfa, disclose))
  {
  }

  lemma FlagTakesNoCode(w: World, pid: nat, ok: bool, disclose: bool)
    ensures TakesNoCode(w, DoFlag(w, pid, ok, disclose))
  {
    if InPhase(w, pid, Flagging) && ok {
      HandOutTakesNoCode(Flagged(w, pid), pid, true, disclose);
    }
  }

  lemma HookTakesNoCode(w: World, pid: nat, ok: bool, disclose: bool)
    ensures TakesNoCode(w, DoHook(w, pid, ok, disclose))
  {
    if InPhase(w, pid, Hooking) && ok {
      HandOutTakesNoCode(w, pid, false, disclose);
    }
  }

  lemma CheckStepsTakeNoCode(cfg: Sessions.Config, w: World, e: Event)
    requires e.action.RequireSession? || e.action.BeginChallenge?
    ensures TakesNoCode(w, Step(cfg, w, e))
  {
  }

  lemma OtherStepsTakeNoCode(cfg: Sessions.Config, w: World, e: Event)
    requires e.action.Begin? || e.action.AskMfa? || e.action.ProveTotp? || e.action.Abandon? || e.action.ReplaceToken? || e.action.Background?
    ensures TakesNoCode(w, Step(cfg, w, e))
  {
  }

  lemma StepKeepsCodeInv(cfg: Sessions.Config, w: World, e: Event)
    requires CodeInv(w)
    ensures CodeInv(Step(cfg, w, e))
  {
    hide CodeInv, TakesNoCode;
    match e.action
    case ProveRecovery(pid, hash) =>
      if pid in w.procs && w.procs[pid].Proving? && Spendable(w, w.procs[pid].user, hash) {
        SpendKeepsInv(w, pid, hash);
      } else {
        FailedProofTakesNoCode(w, pid, hash);
        TakesNoCodeKeepsInv(w, Step(cfg, w, e));
      }
    case ClearFlag(pid, ok) => ClearKeepsCodeInv(w, pid, ok);
    case NewRecoveryCodes(user, base, batch) =>
      if FreshBatch(w, base, batch) {
        NewCodesKeepInv(w, user, base, batch);
      }
    case _ =>
      QuietStepsTakeNoCode(cfg, w, e);
      TakesNoCodeKeepsInv(w, Step(cfg, w, e));
  }

  lemma QuietStepsTakeNoCode(cfg: Sessions.Config, w: World, e: Event)
    requires !e.action.ProveRecovery? && !e.action.ClearFlag? && !e.action.NewRecoveryCodes?
    ensures TakesNoCode(w, Step(cfg, w, e))
  {
    hide TakesNoCode;
    match e.action
    case Flag(pid, ok, disclose) => FlagTakesNoCode(w, pid, ok, disclose);
    case Hook(pid, ok, disclose) => HookTakesNoCode(w, pid, ok, disclose);
    case RequireSession(_, _, _, _) => CheckStepsTakeNoCode(cfg, w, e);
    case BeginChallenge(_, _, _, _, _) => CheckStepsTakeNoCode(cfg, w, e);
    case _ => OtherStepsTakeNoCode(cfg, w, e);
  }

  lemma FailedProofTakesNoCode(w: World, pid: nat, hash: Digest)
    requires !(pid in w.procs && w.procs[pid].Proving? && Spendable(w, w.procs[pid].user, hash))
    ensures TakesNoCode(w, DoProveRecovery(w, pid, hash))
  {
  }

  lemma {:induction false} CodeInvAlways(cfg: Sessions.Config, run: seq<Event>)
    ensures CodeInv(Run(cfg, run))
  {
    if run != [] {
      CodeInvAlways(cfg, run[..|run| - 1]);
      StepKeepsCodeInv(cfg, Run(cfg, run[..|run| - 1]), run[|run| - 1]);
    }
  }

  /** No two completed challenges, on any sessions, used the same recovery code. */
  lemma CodeClearsOneChallenge(cfg: Sessions.Config, run: seq<Event>, w: World, i: nat, j: nat)
    requires Reached(cfg, run, w) && i < j < |w.log| && w.log[i].Challenged? && w.log[j].Challenged?
    ensures w.log[i].spent.Some? ==> w.log[i].spent != w.log[j].spent
  {
    ReachedIsRun(cfg, run, w);
    CodeInvAlways(cfg, run);
    hide Run;
    RecordedOnce(w, i, j);
  }

  lemma RecordedOnce(w: World, i: nat, j: nat)
    requires CodeInv(w) && i < j < |w.log| && w.log[i].Challenged? && w.log[j].Challenged?
    ensures w.log[i].spent.Some? ==> w.log[i].spent != w.log[j].spent
  {
    if w.log[i].spent.Some? {
      assert RecordsCode(w.log[i], w.log[i].spent.value);
    }
  }

  // ----- what leaves a code alone -----

  /** The action presents the code's hash for its user, or replaces the user's codes. */
  predicate Touches(w: World, a: Action, code: RecoveryCode) {
    || (a.ProveRecovery? && a.hash == code.hash && a.pid in w.procs && w.procs[a.pid].Proving? && w.procs[a.pid].user == code.user)
    || (a.NewRecoveryCodes? && a.user == code.user)
  }

  /** Only presenting a code or replacing the user's codes changes it, and an unused code that is
      presented is used from then on. */
  lemma CodeStep(cfg: Sessions.Config, w: World, e: Event, c: nat)
    requires c in w.codes
    ensures !Touches(w, e.action, w.codes[c]) ==> var w' := Step(cfg, w, e); c in w'.codes && w'.codes[c] == w.codes[c]
    ensures Touches(w, e.action, w.codes[c]) && e.action.ProveRecovery? && !w.codes[c].used ==>
      var w' := Step(cfg, w, e); c in w'.codes && w'.codes[c] == w.codes[c].(used := true)
  {
    if !e.action.ProveRecovery? && !e.action.NewRecoveryCodes? && !e.action.ClearFlag? {
      QuietStepsTakeNoCode(cfg, w, e);
      hide Step;
    } else if e.action.NewRecoveryCodes? {
      hide Sessions.Exec;
    } else {
      hide Sessions.Exec;
      assert !w.codes[c].used ==> w.codes[c] == RecoveryCode(w.codes[c].user, w.codes[c].hash, false);
    }
  }

  /** Replacing a user's codes leaves exactly the new ones, all unused, and nobody else's change. */
  lemma ReplacedCodes(cfg: Sessions.Config, w: World, e: Event, code: RecoveryCode)
    requires e.action.NewRecoveryCodes? && FreshBatch(w, e.action.base, e.action.batch)
    ensures code in Step(cfg, w, e).codes.Values <==>
      if code.user == e.action.user then !code.used && exists s :: s in e.action.batch && code.hash == Sha256(s)
      else code in w.codes.Values
  {
    var a := e.action;
    var rows := BatchRows(a.user, a.base, a.batch);
    var kept := map c | c in w.codes && w.codes[c].user != a.user :: w.codes[c];
    assert Step(cfg, w, e).codes == kept + rows;
    KeptApart(kept, rows);
    BatchValues(a.user, a.base, a.batch, code);
    hide Step, FreshBatch, BatchRows;
    if code.user != a.user {
      assert code in kept.Values <==> code in w.codes.Values by {
        if code in w.codes.Values {
          var c :| c in w.codes && w.codes[c] == code;
          assert c in kept && kept[c] == code;
        }
      }
    }
  }

  lemma KeptApart(kept: map<nat, RecoveryCode>, rows: map<nat, RecoveryCode>)
    requires kept.Keys !! rows.Keys
    ensures forall code :: code in (kept + rows).Values <==> code in kept.Values || code in rows.Values
  {
    forall code ensures code in (kept + rows).Values <==> code in kept.Values || code in rows.Values {
      if code in kept.Values {
        var c :| c in kept && kept[c] == code;
        assert (kept + rows)[c] == code;
      }
      if code in rows.Values {
        var c :| c in rows && rows[c] == code;
        assert (kept + rows)[c] == code;
      }
    }
  }

  lemma BatchValues(user: Sessions.Id, base: nat, batch: seq<string>, code: RecoveryCode)
    ensures code in BatchRows(user, base, batch).Values <==>
      code.user == user && !code.used && exists s :: s in batch && code.hash == Sha256(s)
  {
    var rows := BatchRows(user, base, batch);
    hide BatchRows;
    if code in rows.Values {
      var c :| c in rows && rows[c] == code;
      assert batch[c - base] in batch && code.hash == Sha256(batch[c - base]);
    }
    if code.user == user && !code.used {
      if s :| s in batch && code.hash == Sha256(s) {
        var i :| 0 <= i < |batch| && batch[i] == s;
        assert rows[base + i] == code;
      }
    }
  }

  ghost predicate LeftAlone(cfg: Sessions.Config, run: seq<Event>, n: nat, code: RecoveryCode) {
    forall i :: n <= i < |run| ==> !Touches(Run(cfg, run[..i]), run[i].action, code)
  }

  lemma LeftAloneBefore(cfg: Sessions.Config, run: seq<Event>, n: nat, code: RecoveryCode)
    requires n < |run| && LeftAlone(cfg, run, n, code)
    ensures LeftAlone(cfg, run[..|run| - 1], n, code)
    ensures !Touches(Run(cfg, run[..|run| - 1]), run[|run| - 1].action, code)
  {
    var before := run[..|run| - 1];
    hide Run, Touches;
    assert forall i :: n <= i < |before| ==> before[..i] == run[..i] && before[i] == run[i];
  }

  /** An unused code stays usable however many other codes are tried, by anyone, until it is presented for
      its user or the user's codes are replaced. */
  lemma {:induction false} UnusedCodeStays(cfg: Sessions.Config, run: seq<Event>, n: nat, c: nat)
    requires n <= |run| && c in Run(cfg, run[..n]).codes && LeftAlone(cfg, run, n, Run(cfg, run[..n]).codes[c])
    ensures c in Run(cfg, run).codes && Run(cfg, run).codes[c] == Run(cfg, run[..n]).codes[c]
    decreases |run|
  {
    if n == |run| {
      assert run[..n] == run;
    } else {
      var m := |run| - 1;
      var before := run[..m];
      assert before[..n] == run[..n];
      LeftAloneBefore(cfg, run, n, Run(cfg, run[..n]).codes[c]);
      hide Step, Touches, LeftAlone;
      UnusedCodeStays(cfg, before, n, c);
      assert Run(cfg, run) == Step(cfg, Run(cfg, before), run[m]);
      hide Run;
      CodeStep(cfg, Run(cfg, before), run[m], c);
    }
  }
}
