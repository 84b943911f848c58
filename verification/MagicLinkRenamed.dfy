/** The one way an exchange answers with another address, on a run from the start: the account is
    anonymized between the issue of its new token and the read of the account, and the host sets it
    active again. Works for every address, verifier and configuration with somewhere to send a code. */
module MagicLinkRenamed {
  import opened Prelude
  import opened Pkce
  import opened MagicLink
  import opened MagicLinkService
  import S = Sessions

  datatype Scene = Scene(cfg: Config, address: string, verifier: string)

  predicate Fitting(x: Scene) {
    && Normalized(x.address) && 0 < |x.address| <= 254 && IsCodeVerifier(x.verifier)
    && Destination(x.cfg, None).Some? && Destination(x.cfg, None).value.origin.Some?
  }

  function Link(x: Scene): LinkRequest {
    LinkRequest(x.address, true, Some(0), None, PkceChallenge(x.cfg.sha, x.verifier))
  }

  function Origin(x: Scene): string
    requires Fitting(x)
  {
    Destination(x.cfg, None).value.origin.value
  }

  function Plain(yes: bool): Env {
    Env(false, yes, 0, "", 0, 0)
  }

  /** Request a link, sign up elsewhere with the address, verify the link. */
  function Verifies(x: Scene): seq<Action> {
    [Request(Link(x), true, "t", 0, true), Other(AddUser(0, x.address, true)), BeginVerify(0, "t", NoTenant)]
  }

  function Row(x: Scene): Token {
    Token(0, x.address, None, PkceChallenge(x.cfg.sha, x.verifier), 0, LinkTtl(x.cfg), true)
  }

  function Rec(x: Scene): Token {
    Row(x).(consumed := false)
  }

  /** After the token is consumed; `stage` is where the verify stands. */
  function Verified(x: Scene, stage: VerifyStage): World {
    START.(users := map[0 := User(x.address, true, S.Active, false, 0)], userIds := {0},
           tokens := map[Sha256("t") := Row(x)], secrets := {"t"},
           requests := map[Sha256("t") := Asked(x.address, 0, PkceChallenge(x.cfg.sha, x.verifier), None, 0)],
           procs := map[0 := Verifying(Sha256("t"), Rec(x), stage)],
           uses := [TokenUse(Sha256("t"), 0, LinkTtl(x.cfg))])
  }

  lemma ChallengeIsGood(x: Scene)
    requires Fitting(x)
    ensures Acceptable(Link(x)) && Normalize(x.address) == x.address
  {
    ChallengeEncodesDigest(x.cfg.sha, x.verifier, x.verifier);
    hide IsCodeChallenge, PkceChallenge;
  }

  lemma RunVerifies(x: Scene)
    requires Fitting(x)
    ensures Run(x.cfg, Verifies(x)) == Verified(x, Resolve)
  {
    var run := Verifies(x);
    assert run == [] + [run[0]] + [run[1]] + [run[2]];
    RunSnoc(x.cfg, [], run[0]);
    RunSnoc(x.cfg, [] + [run[0]], run[1]);
    RunSnoc(x.cfg, [] + [run[0]] + [run[1]], run[2]);
    assert Run(x.cfg, []) == START;
    hide Run;
    RequestedAndSignedUp(x);
    assert Trim("t") == "t";
    ConsumeStep(x.cfg, SignedUp(x), 0, "t", NoTenant);
    hide Step, Trim;
  }

  function SignedUp(x: Scene): World {
    Verified(x, Resolve).(tokens := map[Sha256("t") := Rec(x)], procs := map[], uses := [])
  }

  lemma RequestedAndSignedUp(x: Scene)
    requires Fitting(x)
    ensures Step(x.cfg, Step(x.cfg, START, Verifies(x)[0]), Verifies(x)[1]) == SignedUp(x)
  {
    ChallengeIsGood(x);
    hide Acceptable, PkceChallenge, Normalize, LinkTtl;
    assert TokenFor(x.cfg, Link(x), 0) == Rec(x);
  }

  // ----- from the consumed token to the code -----

  function Bearer(secret: string): S.Session {
    S.Session(0, Sha256(secret), 0, 1, 0, false, false, false)
  }

  /** After the session is opened. */
  function Opened(x: Scene, stage: VerifyStage): World {
    Verified(x, stage).(sessions := map[0 := Bearer("s")], sessionIds := {0}, secrets := {"t", "s"})
  }

  function CodeRow(x: Scene): Code
    requires Fitting(x)
  {
    Code(0, 0, Origin(x), PkceChallenge(x.cfg.sha, x.verifier), 0, MAGIC_LINK_CODE_TTL, false)
  }

  /** After the code is minted. */
  function Coded(x: Scene): World
    requires Fitting(x)
  {
    Opened(x, Find).(procs := map[], secrets := {"t", "s", "c"}, codes := map[Sha256("c") := CodeRow(x)],
                     mints := map[Sha256("c") := MintOfCode(Sha256("t"), 0, CodeRow(x), 0)])
  }

  function SignsIn(): seq<Action> {
    [Continue(0, Plain(true)), Continue(0, Plain(true)), Continue(0, Plain(true)),
     Continue(0, Env(false, false, 0, "s", 0, 1)), Continue(0, Plain(false)), Continue(0, Plain(false)),
     Continue(0, Env(false, false, 0, "c", 0, 0))]
  }

  lemma ResolvesTheTenant(x: Scene)
    requires Fitting(x)
    ensures Step(x.cfg, Verified(x, Resolve), Continue(0, Plain(true))) == Verified(x, Find)
  {
    StageStep(x.cfg, Verified(x, Resolve), 0, Plain(true));
    hide Step, Destination, PkceChallenge, Lower, LinkTtl;
  }

  lemma FindsTheAccount(x: Scene)
    requires Fitting(x)
    ensures Step(x.cfg, Verified(x, Find), Continue(0, Plain(true))) == Verified(x, Gate(0, true))
  {
    assert Oldest(Verified(x, Find).users, x.address, 0);
    FindStep(x.cfg, Verified(x, Find), 0, Plain(true));
    hide Step, Destination, PkceChallenge, Oldest, LinkTtl;
  }

  lemma PassesTheGuards(x: Scene)
    requires Fitting(x)
    ensures Step(x.cfg, Verified(x, Gate(0, true)), Continue(0, Plain(true))) == Verified(x, Open(0))
  {
    GateStep(x.cfg, Verified(x, Gate(0, true)), 0, 0, true, Plain(true));
    hide Step, Destination, PkceChallenge, Lower, LinkTtl;
  }

  lemma OpensTheSession(x: Scene)
    requires Fitting(x)
    ensures Step(x.cfg, Verified(x, Open(0)), Continue(0, Env(false, false, 0, "s", 0, 1))) == Opened(x, AskMfa(0, 0))
  {
    hide Destination, PkceChallenge, LinkTtl, Lower;
  }

  lemma ReachesTheMint(x: Scene)
    requires Fitting(x)
    ensures Step(x.cfg, Opened(x, AskMfa(0, 0)), Continue(0, Plain(false))) == Opened(x, LoginHook(0, 0))
    ensures Step(x.cfg, Opened(x, LoginHook(0, 0)), Continue(0, Plain(false))) == Opened(x, Mint(0, 0))
  {
    MfaStep(x.cfg, Opened(x, AskMfa(0, 0)), 0, 0, 0, Plain(false));
    HookStep(x.cfg, Opened(x, LoginHook(0, 0)), 0, 0, 0, Plain(false));
    hide Step, Destination, PkceChallenge, LinkTtl;
  }

  lemma MintsTheCode(x: Scene)
    requires Fitting(x)
    ensures Step(x.cfg, Opened(x, Mint(0, 0)), Continue(0, Env(false, false, 0, "c", 0, 0))) == Coded(x)
  {
    ChallengeEncodesDigest(x.cfg.sha, x.verifier, x.verifier);
    MintStep(x.cfg, Opened(x, Mint(0, 0)), 0, 0, 0, Env(false, false, 0, "c", 0, 0));
    assert CanMint(x.cfg, Rec(x)) && CodeFor(x.cfg, 0, Rec(x), 0) == CodeRow(x);
    hide Step, Destination, PkceChallenge, LinkTtl, IsCodeChallenge;
  }

  lemma RunSignsIn(x: Scene)
    requires Fitting(x)
    ensures Run(x.cfg, Verifies(x) + SignsIn()) == Coded(x)
  {
    hide Run, Step, Verified, Opened, Coded, Fitting;
    RunVerifies(x);
    ResolvesTheTenant(x);
    FindsTheAccount(x);
    PassesTheGuards(x);
    OpensTheSession(x);
    ReachesTheMint(x);
    MintsTheCode(x);
    RunFrom(x.cfg, Verifies(x), SignsIn()[..3], Verified(x, Resolve), Verified(x, Find), Verified(x, Gate(0, true)), Verified(x, Open(0)));
    RunFrom(x.cfg, Verifies(x) + SignsIn()[..3], SignsIn()[3..6],
            Verified(x, Open(0)), Opened(x, AskMfa(0, 0)), Opened(x, LoginHook(0, 0)), Opened(x, Mint(0, 0)));
    RunSnoc(x.cfg, Verifies(x) + SignsIn()[..3] + SignsIn()[3..6], SignsIn()[6]);
    assert Verifies(x) + SignsIn() == Verifies(x) + SignsIn()[..3] + SignsIn()[3..6] + [SignsIn()[6]];
  }

  /** Three more steps. */
  lemma RunFrom(cfg: Config, run: seq<Action>, more: seq<Action>, w0: World, w1: World, w2: World, w3: World)
    requires |more| == 3 && Run(cfg, run) == w0
    requires Step(cfg, w0, more[0]) == w1 && Step(cfg, w1, more[1]) == w2 && Step(cfg, w2, more[2]) == w3
    ensures Run(cfg, run + more) == w3
  {
    hide Run, Step;
    RunSnoc(cfg, run, more[0]);
    RunSnoc(cfg, run + [more[0]], more[1]);
    RunSnoc(cfg, run + [more[0]] + [more[1]], more[2]);
    assert run + more == run + [more[0]] + [more[1]] + [more[2]];
  }

  // ----- the exchange, with the account renamed on the way -----

  function Exchanger(x: Scene, step: ExchangeStage): Proc
    requires Fitting(x)
  {
    Exchanging(Sha256("c"), CodeRow(x), x.verifier, Origin(x), 0, step)
  }

  /** After the code is consumed and its checks passed. */
  function Taken(x: Scene): World
    requires Fitting(x)
  {
    Coded(x).(codes := map[Sha256("c") := CodeRow(x).(consumed := true)], procs := map[0 := Exchanger(x, Issue)],
              uses := [TokenUse(Sha256("t"), 0, LinkTtl(x.cfg)), CodeUse(Sha256("c"), 0, MAGIC_LINK_CODE_TTL, true)])
  }

  /** After the new token is issued. */
  function Issued(x: Scene): World
    requires Fitting(x)
  {
    Taken(x).(sessions := map[0 := Bearer("n")], secrets := {"t", "s", "c", "n"}, procs := map[0 := Exchanger(x, ReadUser(0))])
  }

  /** After the account is anonymized, and set active again. */
  function Renamed(x: Scene): World
    requires Fitting(x)
  {
    Issued(x).(users := map[0 := User(Placeholder(0), true, S.Active, false, 0)], anonymized := {0})
  }

  function Exchanges(x: Scene): seq<Action>
    requires Fitting(x)
  {
    [BeginExchange(0, "c", Some(Origin(x)), x.verifier), Continue(0, Env(false, false, 0, "n", 0, 0)),
     Other(Anonymize(0)), Other(SetStatus(0, S.Active)), Continue(0, Plain(false))]
  }

  lemma TakesTheCode(x: Scene)
    requires Fitting(x)
    ensures Step(x.cfg, Coded(x), Exchanges(x)[0]) == Taken(x)
  {
    ChallengeEncodesDigest(x.cfg.sha, x.verifier, x.verifier);
    hide Destination, PkceChallenge, LinkTtl, IsCodeChallenge, IsCodeVerifier;
  }

  lemma IssuesTheToken(x: Scene)
    requires Fitting(x)
    ensures Step(x.cfg, Taken(x), Exchanges(x)[1]) == Issued(x)
  {
    IssueStep(x.cfg, Taken(x), 0, Env(false, false, 0, "n", 0, 0));
    hide Step, Destination, PkceChallenge, LinkTtl;
  }

  lemma RenamesTheAccount(x: Scene)
    requires Fitting(x)
    ensures Step(x.cfg, Step(x.cfg, Issued(x), Exchanges(x)[2]), Exchanges(x)[3]) == Renamed(x)
  {
    hide Destination, PkceChallenge, LinkTtl, Placeholder;
    assert Issued(x).users - {0} == map[];
  }

  lemma Completes(x: Scene)
    requires Fitting(x)
    ensures var w := Step(x.cfg, Renamed(x), Exchanges(x)[4]);
      |w.exchanges| == 1 && w.exchanges[0].email == Placeholder(0) && w.exchanges[0].user == 0 && w.exchanges[0].renamed
  {
    ReadStep(x.cfg, Renamed(x), 0, 0, Plain(false));
    hide Step, Destination, PkceChallenge, LinkTtl, Placeholder;
  }

  /** The run leads to one exchange, for a link requested by the address, answered with the placeholder. */
  ghost predicate AnswersRenamed(x: Scene, run: seq<Action>, w: World) {
    && Reached(x.cfg, run, w) && |w.exchanges| == 1 && w.exchanges[0].renamed
    && w.exchanges[0].email == Placeholder(w.exchanges[0].user)
    && Sha256("t") in w.requests && w.requests[Sha256("t")].email == x.address
  }

  /** Whatever the address, verifier and configuration, some run from the start ends in an exchange that
      answers with the placeholder of the account the link was requested for. */
  lemma RenamedAddressIsReturned(x: Scene)
    requires Fitting(x)
    ensures exists run, w :: AnswersRenamed(x, run, w)
  {
    hide Run, Reached, Coded, Taken, Issued, Fitting, Placeholder;
    RunSignsIn(x);
    TakesTheCode(x);
    IssuesTheToken(x);
    RenamesTheAccount(x);
    Completes(x);
    var before := Verifies(x) + SignsIn();
    var w3 := Step(x.cfg, Issued(x), Exchanges(x)[2]);
    RequestKept(x);
    hide Step, Exchanges, Verifies, SignsIn, Renamed;
    RunSnoc(x.cfg, before, Exchanges(x)[0]);
    var run1 := before + [Exchanges(x)[0]];
    RunSnoc(x.cfg, run1, Exchanges(x)[1]);
    var run2 := run1 + [Exchanges(x)[1]];
    RunSnoc(x.cfg, run2, Exchanges(x)[2]);
    var run3 := run2 + [Exchanges(x)[2]];
    RunSnoc(x.cfg, run3, Exchanges(x)[3]);
    var run4 := run3 + [Exchanges(x)[3]];
    RunSnoc(x.cfg, run4, Exchanges(x)[4]);
    var run5 := run4 + [Exchanges(x)[4]];
    ReachedIsRun(x.cfg, run5, Run(x.cfg, run5));
    assert AnswersRenamed(x, run5, Run(x.cfg, run5));
  }

  lemma RequestKept(x: Scene)
    requires Fitting(x)
    ensures var w := Step(x.cfg, Renamed(x), Exchanges(x)[4]);
      Sha256("t") in w.requests && w.requests[Sha256("t")].email == x.address
  {
    ReadStep(x.cfg, Renamed(x), 0, 0, Plain(false));
    hide Step, Destination, PkceChallenge, LinkTtl, Placeholder;
  }
}
