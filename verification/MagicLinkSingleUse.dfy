/** What a failed attempt costs: a mismatched tenant or a malformed verifier nothing, a wrong proof the code. */
module MagicLinkSingleUse {
  import opened Prelude
  import opened Pkce
  import opened MagicLink
  import opened MagicLinkRuns
  import opened MagicLinkAgreement
  import Runs
  import S = Sessions

  /** A verify for another tenant changes nothing, so the right tenant, or none, still succeeds. */
  lemma MismatchedTenantLeavesToken(w: World, pid: nat, token: string, wrong: Id, right: Tenant)
    requires var h := Sha256(Trim(token)); h in w.tokens && w.tokens[h].org != wrong
    ensures DoBeginVerify(w, pid, token, Tenant(wrong)) == w
    ensures var h := Sha256(Trim(token));
      pid !in w.procs && TokenShape(Trim(token)) && !w.tokens[h].consumed && w.tokens[h].expiresAt > w.now
      && (right.NoTenant? || right == Tenant(w.tokens[h].org)) ==>
        var w' := DoBeginVerify(DoBeginVerify(w, pid, token, Tenant(wrong)), pid, token, right);
        pid in w'.procs && w'.procs[pid] == Verifying(h, w.tokens[h], Resolve) && w'.tokens[h].consumed
  {
    hide TokenShape, Trim;
  }

  /** A verifier that is not one, or a code of impossible length, never reaches the table. */
  lemma MalformedAttemptLeavesCode(cfg: Config, w: World, pid: nat, code: string, origin: Option<string>, verifier: string)
    requires !IsCodeVerifier(verifier) || !CodeShape(code)
    ensures DoBeginExchange(cfg, w, pid, code, origin, verifier) == w
  {
  }

  /** A verify for an unknown tenant or one that is not the token's, or an exchange with a malformed
      verifier or code. */
  ghost predicate Futile(w: World, a: Action) {
    || (a.BeginVerify? && a.tenant.UnknownTenant?)
    || (a.BeginVerify? && a.tenant.Tenant? && Sha256(Trim(a.token)) in w.tokens && w.tokens[Sha256(Trim(a.token))].org != a.tenant.org)
    || (a.BeginExchange? && (!IsCodeVerifier(a.verifier) || !CodeShape(a.code)))
  }

  /** Such an attempt costs nothing: with or without it, whatever happens afterwards ends in the same state. */
  lemma FutileAttemptsCostNothing(cfg: Config, run: seq<Action>, w: World, a: Action, rest: seq<Action>, w': World)
    requires Reached(cfg, run, w) && Futile(w, a)
    ensures Reached(cfg, run + [a] + rest, w') <==> Reached(cfg, run + rest, w')
  {
    ReachedIsRun(cfg, run, w);
    FutileStep(cfg, w, a);
    hide Futile, Step, Reached;
    assert (run + [a])[..|run|] == run;
    assert Run(cfg, run + [a]) == w;
    Runs.AfterBoth(StepOf(cfg), START, run + [a], rest);
    Runs.AfterBoth(StepOf(cfg), START, run, rest);
    ReachedIsRun(cfg, run + [a] + rest, w');
    ReachedIsRun(cfg, run + rest, w');
  }

  lemma FutileStep(cfg: Config, w: World, a: Action)
    requires Futile(w, a)
    ensures Step(cfg, w, a) == w
  {
    if a.BeginVerify? && a.tenant.UnknownTenant? {
      hide TokenShape, Trim;
    } else if a.BeginVerify? {
      MismatchedTenantLeavesToken(w, a.pid, a.token, a.tenant.org, a.tenant);
    } else {
      MalformedAttemptLeavesCode(cfg, w, a.pid, a.code, a.origin, a.verifier);
    }
  }

  /** An attempt that reaches the row of a live code but presents the wrong origin or verifier. */
  ghost predicate WrongProof(cfg: Config, w: World, a: Action) {
    && a.BeginExchange? && a.pid !in w.procs && CodeShape(a.code) && IsCodeVerifier(a.verifier)
    && CodeMatches(w.codes, Sha256(a.code), w.now)
    && !Proves(cfg, w.codes[Sha256(a.code)], a.origin, a.verifier)
  }

  lemma WrongProofIsRecorded(cfg: Config, w: World, a: Action)
    requires WrongProof(cfg, w, a)
    ensures var w' := Step(cfg, w, a); var c := Sha256(a.code);
      && w'.codes == w.codes[c := w.codes[c].(consumed := true)]
      && w'.procs == w.procs && w'.exchanges == w.exchanges
      && w'.uses == w.uses + [CodeUse(c, w.now, w.codes[c].expiresAt, false)]
  {
    hide CodeShape, IsCodeVerifier, Proves;
  }

  lemma QuietUses(w: World, w': World, pid: nat)
    requires Moves(w, w', pid)
    ensures w'.uses == w.uses
  {
  }

  lemma VerifyUses(cfg: Config, w: World, pid: nat, e: Env)
    requires Inv(cfg, w) && pid in w.procs && w.procs[pid].Verifying?
    ensures DoContinue(cfg, w, pid, e).uses == w.uses
  {
    assert Ids(w) && ProcFits(w, w.procs[pid]);
    var s := w.procs[pid].stage;
    hide Inv, Ids, StageFits, Moves, StepAccount, MintCode, Mints;
    if InAccountPhase(s) {
      AccountMoves(cfg, w, pid, e);
      QuietUses(w, StepAccount(cfg, w, pid, e), pid);
    } else if s.Mint? {
      MintOutcome(cfg, w, pid, s.user, s.sid, e);
    } else {
      SessionUses(cfg, w, pid, e);
    }
  }

  lemma SessionUses(cfg: Config, w: World, pid: nat, e: Env)
    requires Ids(w) && pid in w.procs && w.procs[pid].Verifying? && !w.procs[pid].stage.Mint?
    requires StageFits(w, w.procs[pid].stage, w.procs[pid].rec.email)
    ensures StepSession(cfg, w, pid, e).uses == w.uses
  {
    hide Ids, StageFits, Moves, StepSession;
    SessionMoves(cfg, w, pid, e);
    QuietUses(w, StepSession(cfg, w, pid, e), pid);
  }

  lemma IssueUses(w: World, pid: nat, e: Env)
    requires pid in w.procs && w.procs[pid].Exchanging? && w.procs[pid].step.Issue?
    ensures StepExchange(w, pid, e).uses == w.uses
  {
    hide S.IssueToken, S.Live;
  }

  lemma ExchangeUses(w: World, pid: nat, e: Env)
    requires pid in w.procs && w.procs[pid].Exchanging?
    ensures StepExchange(w, pid, e).uses == w.uses
  {
    if w.procs[pid].step.Issue? {
      IssueUses(w, pid, e);
    } else {
      AfterIssueUses(w, pid, e);
    }
    hide StepExchange;
  }

  lemma AfterIssueUses(w: World, pid: nat, e: Env)
    requires pid in w.procs && w.procs[pid].Exchanging? && !w.procs[pid].step.Issue?
    ensures StepExchange(w, pid, e).uses == w.uses
  {
    hide S.RevokeById;
  }

  lemma ContinueUses(cfg: Config, w: World, pid: nat, e: Env)
    requires Inv(cfg, w)
    ensures DoContinue(cfg, w, pid, e).uses == w.uses
  {
    hide Inv, StepAccount, StepSession, StepExchange;
    if pid in w.procs {
      if w.procs[pid].Verifying? {
        VerifyUses(cfg, w, pid, e);
      } else {
        ExchangeUses(w, pid, e);
      }
    }
  }

  lemma StatementUses(w: World, s: Statement)
    ensures DoStatement(w, s).uses == w.uses
  {
    hide EmailTaken, S.HashFree, S.RotateToken, S.RevokeById, S.RevokeForUser;
  }

  lemma StartUses(cfg: Config, w: World, a: Action)
    requires a.Request? || a.BeginVerify? || a.BeginExchange?
    ensures w.uses <= Step(cfg, w, a).uses
  {
    hide Acceptable, Normalize, TokenShape, Trim, CodeShape, IsCodeVerifier, Proves;
  }

  lemma StepUses(cfg: Config, w: World, a: Action)
    requires Inv(cfg, w)
    ensures w.uses <= Step(cfg, w, a).uses
  {
    hide Inv, DoRequest, DoBeginVerify, DoBeginExchange, DoContinue, DoStatement;
    match a
    case Continue(pid, e) => ContinueUses(cfg, w, pid, e);
    case Other(s) => StatementUses(w, s);
    case Abandon(_) =>
    case Tick(_) =>
    case Purge(_, _) =>
    case _ => StartUses(cfg, w, a);
  }

  lemma {:induction false} UsesGrow(cfg: Config, run: seq<Action>, rest: seq<Action>)
    ensures Run(cfg, run).uses <= Run(cfg, run + rest).uses
  {
    hide Step;
    if rest == [] {
      assert run + rest == run;
    } else {
      UsesGrow(cfg, run, rest[..|rest| - 1]);
      assert (run + rest)[..|run + rest| - 1] == run + rest[..|rest| - 1];
      InvAlways(cfg, run + rest[..|rest| - 1]);
      hide Inv;
      StepUses(cfg, Run(cfg, run + rest[..|rest| - 1]), rest[|rest| - 1]);
    }
  }

  /** A consumption that failed its checks leaves a code that no exchange ever completes. */
  lemma FailedUseHasNoExchange(cfg: Config, run: seq<Action>, w: World, i: nat, j: nat)
    requires Reached(cfg, run, w) && i < |w.uses| && w.uses[i].CodeUse? && !w.uses[i].proved && j < |w.exchanges|
    ensures w.exchanges[j].code != w.uses[i].hash
  {
    ReachedIsRun(cfg, run, w);
    InvAlways(cfg, run);
    hide Run, Fitting, IsCodeVerifier, PkceChallenge;
    assert ExchangeGood(cfg, w, w.exchanges[j]) && UsesApart(w);
    var k :| 0 <= k < |w.uses| && w.uses[k].CodeUse? && w.uses[k].hash == w.exchanges[j].code && w.uses[k].proved;
    assert !SameKey(w.uses[k], w.uses[i]);
  }

  /** A wrong origin or verifier burns the code: whatever happens afterwards, it is never exchanged. */
  lemma WrongProofBurnsCode(cfg: Config, run: seq<Action>, a: Action, rest: seq<Action>, j: nat)
    requires WrongProof(cfg, Run(cfg, run), a)
    requires j < |Run(cfg, run + [a] + rest).exchanges|
    ensures Run(cfg, run + [a] + rest).exchanges[j].code != Sha256(a.code)
  {
    hide Step, WrongProof;
    var w := Run(cfg, run);
    assert (run + [a])[..|run|] == run;
    assert Run(cfg, run + [a]) == Step(cfg, w, a);
    WrongProofIsRecorded(cfg, w, a);
    UsesGrow(cfg, run + [a], rest);
    hide Run;
    assert Run(cfg, run + [a] + rest).uses[|w.uses|] == Run(cfg, run + [a]).uses[|w.uses|];
    ReachedIsRun(cfg, run + [a] + rest, Run(cfg, run + [a] + rest));
    FailedUseHasNoExchange(cfg, run + [a] + rest, Run(cfg, run + [a] + rest), |w.uses|, j);
  }
}
