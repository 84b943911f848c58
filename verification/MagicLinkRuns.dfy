/** What every run of the magic-link protocol keeps about its tokens, codes and history. */
module MagicLinkRuns {
  import opened Prelude
  import opened Pkce
  import opened MagicLink
  import S = Sessions

  // ----- where rows come from -----

  ghost predicate FromRequest(cfg: Config, row: Token, a: Asked) {
    && row.org == a.org && row.email == a.email && row.challenge == a.challenge
    && row.redirect == (if Allowed(cfg, a.redirect) then a.redirect else None)
  }

  ghost predicate FromMint(row: Code, m: Minted) {
    && row.session == m.session && row.org == m.org && row.origin == m.origin && row.challenge == m.challenge
    && row.expiresAt == m.stamp + MAGIC_LINK_CODE_TTL
  }

  /** The code was minted for the request: same organization and challenge, sent to its destination. */
  ghost predicate AnswersRequest(cfg: Config, m: Minted, a: Asked) {
    && m.org == a.org && m.challenge == a.challenge
    && Destination(cfg, a.redirect).Some? && Destination(cfg, a.redirect).value.origin == Some(m.origin)
    && a.at <= m.at && m.stamp <= m.at
  }

  /** The verifier and origin presented belong to the code, and it was consumed in time. */
  ghost predicate Proved(cfg: Config, m: Minted, verifier: string, origin: string, at: int) {
    && IsCodeVerifier(verifier) && PkceChallenge(cfg.sha, verifier) == m.challenge && origin == m.origin
    && m.at <= at < m.stamp + MAGIC_LINK_CODE_TTL
  }

  // ----- facts about one element; time never takes them away -----

  ghost predicate SpentToken(w: World, h: Digest) {
    h in w.requests && (h in w.tokens ==> w.tokens[h].consumed)
  }

  ghost predicate SpentCode(w: World, c: Digest) {
    c in w.mints && (c in w.codes ==> w.codes[c].consumed)
  }

  /** The code was consumed by an attempt that passed its checks. */
  ghost predicate Redeemed(uses: seq<Use>, c: Digest) {
    exists i :: 0 <= i < |uses| && uses[i].CodeUse? && uses[i].hash == c && uses[i].proved
  }

  lemma RedeemedLasts(uses: seq<Use>, uses': seq<Use>, c: Digest)
    requires Redeemed(uses, c) && uses <= uses'
    ensures Redeemed(uses', c)
  {
    var i :| 0 <= i < |uses| && uses[i].CodeUse? && uses[i].hash == c && uses[i].proved;
    assert uses'[i] == uses[i];
  }

  ghost predicate RequestGood(w: World, a: Asked) {
    Lower(a.email) == a.email && IsCodeChallenge(a.challenge) && a.at <= w.now
  }

  ghost predicate TokenGood(cfg: Config, w: World, h: Digest, row: Token) {
    h in w.requests && FromRequest(cfg, row, w.requests[h])
  }

  ghost predicate VerifierGood(cfg: Config, w: World, v: Proc)
    requires v.Verifying?
  {
    SpentToken(w, v.token) && FromRequest(cfg, v.rec, w.requests[v.token])
  }

  ghost predicate MintGood(cfg: Config, w: World, m: Minted) {
    SpentToken(w, m.token) && AnswersRequest(cfg, m, w.requests[m.token]) && m.at <= w.now
  }

  ghost predicate CodeGood(w: World, c: Digest, row: Code) {
    c in w.mints && FromMint(row, w.mints[c])
  }

  ghost predicate ExchangerGood(cfg: Config, w: World, x: Proc)
    requires x.Exchanging?
  {
    && SpentCode(w, x.code) && FromMint(x.row, w.mints[x.code])
    && Proved(cfg, w.mints[x.code], x.verifier, x.origin, x.at) && Redeemed(w.uses, x.code)
  }

  ghost predicate ExchangeGood(cfg: Config, w: World, x: Exchanged) {
    && SpentCode(w, x.code) && x.org == w.mints[x.code].org
    && Proved(cfg, w.mints[x.code], x.verifier, x.origin, x.at) && Redeemed(w.uses, x.code)
  }

  ghost predicate UseGood(w: World, u: Use) {
    && u.at < u.expiresAt
    && (if u.TokenUse? then SpentToken(w, u.hash) else SpentCode(w, u.hash))
  }

  /** History only grows, and what was consumed or deleted does not come back. */
  ghost predicate Later(w: World, w': World) {
    && w.now <= w'.now && w.uses <= w'.uses
    && (forall h :: h in w.requests ==> h in w'.requests && w'.requests[h] == w.requests[h])
    && (forall c :: c in w.mints ==> c in w'.mints && w'.mints[c] == w.mints[c])
    && (forall h :: h in w'.tokens && h in w.requests ==> h in w.tokens && (w.tokens[h].consumed ==> w'.tokens[h].consumed))
    && (forall c :: c in w'.codes && c in w.mints ==> c in w.codes && (w.codes[c].consumed ==> w'.codes[c].consumed))
  }

  lemma TokenFactsLast(cfg: Config, w: World, w': World)
    requires Later(w, w')
    ensures forall h :: SpentToken(w, h) ==> SpentToken(w', h)
    ensures forall h, row :: TokenGood(cfg, w, h, row) ==> TokenGood(cfg, w', h, row)
    ensures forall m :: MintGood(cfg, w, m) ==> MintGood(cfg, w', m)
    ensures forall a :: RequestGood(w, a) ==> RequestGood(w', a)
  {
  }

  lemma CodeFactsLast(w: World, w': World)
    requires Later(w, w')
    ensures forall c :: SpentCode(w, c) ==> SpentCode(w', c)
    ensures forall c, row :: CodeGood(w, c, row) ==> CodeGood(w', c, row)
  {
  }

  lemma VerifierLasts(cfg: Config, w: World, w': World, v: Proc)
    requires Later(w, w') && v.Verifying? && VerifierGood(cfg, w, v)
    ensures VerifierGood(cfg, w', v)
  {
  }

  lemma ExchangerLasts(cfg: Config, w: World, w': World, x: Proc)
    requires Later(w, w') && x.Exchanging? && ExchangerGood(cfg, w, x)
    ensures ExchangerGood(cfg, w', x)
  {
    RedeemedLasts(w.uses, w'.uses, x.code);
    hide Redeemed;
  }

  lemma ExchangeLasts(cfg: Config, w: World, w': World, x: Exchanged)
    requires Later(w, w') && ExchangeGood(cfg, w, x)
    ensures ExchangeGood(cfg, w', x)
  {
    RedeemedLasts(w.uses, w'.uses, x.code);
    hide Redeemed;
  }

  lemma UseLasts(w: World, w': World, u: Use)
    requires Later(w, w') && UseGood(w, u)
    ensures UseGood(w', u)
  {
  }

  // ----- the invariant -----

  ghost predicate Known(w: World) {
    && w.tokens.Keys <= w.requests.Keys && w.codes.Keys <= w.mints.Keys
    && (forall h :: h in w.requests ==> h.preimage in w.secrets)
    && (forall c :: c in w.mints ==> c.preimage in w.secrets)
  }

  ghost predicate TokensGood(cfg: Config, w: World) {
    && (forall h :: h in w.requests ==> RequestGood(w, w.requests[h]))
    && (forall h :: h in w.tokens ==> TokenGood(cfg, w, h, w.tokens[h]))
    && (forall c :: c in w.mints ==> MintGood(cfg, w, w.mints[c]))
    && (forall c :: c in w.codes ==> CodeGood(w, c, w.codes[c]))
  }

  ghost predicate ProcsGood(cfg: Config, w: World) {
    && (forall p :: p in w.procs && w.procs[p].Verifying? ==> VerifierGood(cfg, w, w.procs[p]))
    && (forall p :: p in w.procs && w.procs[p].Exchanging? ==> ExchangerGood(cfg, w, w.procs[p]))
  }

  ghost predicate RecordsGood(cfg: Config, w: World) {
    && (forall j :: 0 <= j < |w.exchanges| ==> ExchangeGood(cfg, w, w.exchanges[j]))
    && (forall i :: 0 <= i < |w.uses| ==> UseGood(w, w.uses[i]))
  }

  /** A consumed token is held by at most one verify, or by the one code minted from it. */
  ghost predicate TokensApart(w: World) {
    && (forall p, q ::
          p in w.procs && q in w.procs && w.procs[p].Verifying? && w.procs[q].Verifying? && w.procs[p].token == w.procs[q].token ==>
            p == q)
    && (forall p, c :: p in w.procs && c in w.mints && w.procs[p].Verifying? ==> w.procs[p].token != w.mints[c].token)
    && (forall c, d :: c in w.mints && d in w.mints && w.mints[c].token == w.mints[d].token ==> c == d)
  }

  /** A consumed code is held by at most one exchange, in progress or completed. */
  ghost predicate CodesApart(w: World) {
    && (forall p, q ::
          p in w.procs && q in w.procs && w.procs[p].Exchanging? && w.procs[q].Exchanging? && w.procs[p].code == w.procs[q].code ==>
            p == q)
    && (forall p, j :: p in w.procs && 0 <= j < |w.exchanges| && w.procs[p].Exchanging? ==> w.procs[p].code != w.exchanges[j].code)
    && (forall i, j :: 0 <= i < |w.exchanges| && 0 <= j < |w.exchanges| && w.exchanges[i].code == w.exchanges[j].code ==> i == j)
  }

  predicate SameKey(u: Use, v: Use) {
    (u.TokenUse? <==> v.TokenUse?) && u.hash == v.hash
  }

  ghost predicate UsesApart(w: World) {
    forall i, j :: 0 <= i < |w.uses| && 0 <= j < |w.uses| && SameKey(w.uses[i], w.uses[j]) ==> i == j
  }

  ghost predicate Protocol(cfg: Config, w: World) {
    && Known(w) && TokensGood(cfg, w) && ProcsGood(cfg, w) && RecordsGood(cfg, w)
    && TokensApart(w) && CodesApart(w) && UsesApart(w)
  }

  // ----- steps that consume nothing and record nothing -----

  predicate SameOwner(p: Proc, p': Proc) {
    if p.Verifying? then p'.Verifying? && p'.token == p.token && p'.rec == p.rec
    else p'.Exchanging? && p'.(step := p.step) == p
  }

  ghost predicate Quiet(w: World, w': World) {
    && w'.requests == w.requests && w'.mints == w.mints && w'.exchanges == w.exchanges && w'.uses == w.uses
    && w.secrets <= w'.secrets && w.now <= w'.now
    && (forall h :: h in w'.tokens ==> h in w.tokens && w'.tokens[h] == w.tokens[h])
    && (forall c :: c in w'.codes ==> c in w.codes && w'.codes[c] == w.codes[c])
    && (forall p :: p in w'.procs ==> p in w.procs && SameOwner(w.procs[p], w'.procs[p]))
  }

  lemma QuietProcs(cfg: Config, w: World, w': World)
    requires ProcsGood(cfg, w) && Later(w, w')
    requires forall p :: p in w'.procs ==> p in w.procs && SameOwner(w.procs[p], w'.procs[p])
    ensures ProcsGood(cfg, w')
  {
    hide Later;
    forall p | p in w'.procs && w'.procs[p].Verifying? ensures VerifierGood(cfg, w', w'.procs[p]) {
      VerifierLasts(cfg, w, w', w.procs[p]);
    }
    forall p | p in w'.procs && w'.procs[p].Exchanging? ensures ExchangerGood(cfg, w', w'.procs[p]) {
      ExchangerLasts(cfg, w, w', w.procs[p]);
    }
  }

  lemma RecordsLast(cfg: Config, w: World, w': World)
    requires RecordsGood(cfg, w) && Later(w, w')
    ensures forall j :: 0 <= j < |w.exchanges| ==> ExchangeGood(cfg, w', w.exchanges[j])
    ensures forall i :: 0 <= i < |w.uses| ==> UseGood(w', w.uses[i])
  {
    hide Later, ExchangeGood, UseGood;
    forall j | 0 <= j < |w.exchanges| ensures ExchangeGood(cfg, w', w.exchanges[j]) {
      ExchangeLasts(cfg, w, w', w.exchanges[j]);
    }
    forall i | 0 <= i < |w.uses| ensures UseGood(w', w.uses[i]) {
      UseLasts(w, w', w.uses[i]);
    }
  }

  lemma QuietTokens(cfg: Config, w: World, w': World)
    requires TokensGood(cfg, w) && Quiet(w, w') && Later(w, w')
    ensures TokensGood(cfg, w')
  {
    TokenFactsLast(cfg, w, w');
    CodeFactsLast(w, w');
    hide Later, RequestGood, TokenGood, MintGood, CodeGood, SpentToken, SpentCode;
  }

  lemma QuietTokensApart(w: World, w': World)
    requires TokensApart(w) && Quiet(w, w')
    ensures TokensApart(w')
  {
  }

  lemma QuietCodesApart(w: World, w': World)
    requires CodesApart(w) && Quiet(w, w')
    ensures CodesApart(w')
  {
  }

  lemma QuietIsLater(w: World, w': World)
    requires Known(w) && Quiet(w, w')
    ensures Known(w') && Later(w, w')
  {
  }

  lemma QuietKeepsProtocol(cfg: Config, w: World, w': World)
    requires Protocol(cfg, w) && Quiet(w, w')
    ensures Protocol(cfg, w')
  {
    hide Known, TokensGood, ProcsGood, TokensApart, CodesApart, Later;
    QuietIsLater(w, w');
    QuietTokensApart(w, w');
    QuietCodesApart(w, w');
    QuietTokens(cfg, w, w');
    QuietProcs(cfg, w, w');
    RecordsLast(cfg, w, w');
  }

  // ----- request -----

  ghost predicate Asks(cfg: Config, w: World, w': World, h: Digest, row: Token, a: Asked) {
    && h.preimage !in w.secrets && FromRequest(cfg, row, a) && RequestGood(w, a)
    && w'.tokens == w.tokens[h := row] && w'.requests == w.requests[h := a] && w'.secrets == w.secrets + {h.preimage}
    && w'.codes == w.codes && w'.mints == w.mints && w'.exchanges == w.exchanges && w'.uses == w.uses
    && w'.procs == w.procs && w'.now == w.now
  }

  lemma AskIsLater(cfg: Config, w: World, w': World, h: Digest, row: Token, a: Asked)
    requires Known(w) && Asks(cfg, w, w', h, row, a)
    ensures Known(w') && Later(w, w') && h !in w.tokens && h !in w.requests
  {
  }

  lemma AskKeepsTokens(cfg: Config, w: World, w': World, h: Digest, row: Token, a: Asked)
    requires TokensGood(cfg, w) && Asks(cfg, w, w', h, row, a) && Later(w, w') && h !in w.tokens
    ensures TokensGood(cfg, w')
  {
    TokenFactsLast(cfg, w, w');
    CodeFactsLast(w, w');
    assert TokenGood(cfg, w', h, row);
    assert RequestGood(w', a);
    hide Later, RequestGood, TokenGood, MintGood, CodeGood, SpentToken, SpentCode;
  }

  lemma AskKeepsProtocol(cfg: Config, w: World, w': World, h: Digest, row: Token, a: Asked)
    requires Protocol(cfg, w) && Asks(cfg, w, w', h, row, a)
    ensures Protocol(cfg, w')
  {
    hide Known, TokensGood, ProcsGood, Later;
    AskIsLater(cfg, w, w', h, row, a);
    AskKeepsTokens(cfg, w, w', h, row, a);
    QuietProcs(cfg, w, w');
    RecordsLast(cfg, w, w');
  }

  function AskedBy(w: World, r: LinkRequest): Asked
    requires r.tenant.Some?
  {
    Asked(Normalize(r.email), r.tenant.value, r.challenge, r.redirect, w.now)
  }

  lemma RequestAsks(cfg: Config, w: World, r: LinkRequest, secret: string, stamp: int)
    requires Acceptable(r) && secret !in w.secrets && stamp <= w.now && Sha256(secret) !in w.tokens
    ensures Asks(cfg, w, DoRequest(cfg, w, r, true, secret, stamp, true), Sha256(secret), TokenFor(cfg, r, stamp), AskedBy(w, r))
  {
    NormalizeIsStable(r.email);
    hide Allowed, IsCodeChallenge, LinkTtl, Normalize;
  }

  lemma RequestKeepsProtocol(cfg: Config, w: World, r: LinkRequest, allowed: bool, secret: string, stamp: int, stored: bool)
    requires Protocol(cfg, w)
    ensures Protocol(cfg, DoRequest(cfg, w, r, allowed, secret, stamp, stored))
  {
    hide Protocol, Asks;
    if allowed && stored && Acceptable(r) && secret !in w.secrets && stamp <= w.now && Sha256(secret) !in w.tokens {
      RequestAsks(cfg, w, r, secret, stamp);
      hide Acceptable, TokenFor, DoRequest;
      AskKeepsProtocol(cfg, w, DoRequest(cfg, w, r, allowed, secret, stamp, stored), Sha256(secret), TokenFor(cfg, r, stamp), AskedBy(w, r));
    }
  }

  // ----- the step that consumes a token -----

  ghost predicate TakesToken(w: World, w': World, pid: nat, h: Digest) {
    && pid !in w.procs && h in w.tokens && !w.tokens[h].consumed && w.tokens[h].expiresAt > w.now
    && w'.tokens == MarkToken(w.tokens, h) && w'.procs == w.procs[pid := Verifying(h, w.tokens[h], Resolve)]
    && w'.uses == w.uses + [TokenUse(h, w.now, w.tokens[h].expiresAt)]
    && w'.codes == w.codes && w'.requests == w.requests && w'.mints == w.mints && w'.exchanges == w.exchanges
    && w'.secrets == w.secrets && w'.now == w.now
  }

  lemma TakeTokenIsLater(w: World, w': World, pid: nat, h: Digest)
    requires Known(w) && TakesToken(w, w', pid, h)
    ensures Known(w') && Later(w, w') && SpentToken(w', h)
  {
  }

  lemma TakeTokenKeepsTokens(cfg: Config, w: World, w': World, pid: nat, h: Digest)
    requires TokensGood(cfg, w) && TakesToken(w, w', pid, h) && Later(w, w') && SpentToken(w', h)
    ensures TokensGood(cfg, w')
    ensures VerifierGood(cfg, w', w'.procs[pid])
  {
    TokenFactsLast(cfg, w, w');
    CodeFactsLast(w, w');
    assert TokenGood(cfg, w, h, w.tokens[h]);
    assert TokenGood(cfg, w', h, w'.tokens[h]);
    hide Later, RequestGood, MintGood, CodeGood, SpentToken, SpentCode;
  }

  lemma TakeTokenKeepsApart(cfg: Config, w: World, w': World, pid: nat, h: Digest)
    requires TokensApart(w) && TakesToken(w, w', pid, h) && TokensGood(cfg, w) && ProcsGood(cfg, w)
    ensures TokensApart(w')
  {
    hide AnswersRequest, FromMint, FromRequest, Proved;
    forall c | c in w.mints ensures w.mints[c].token != h {
      assert MintGood(cfg, w, w.mints[c]);
    }
    forall p | p in w.procs && w.procs[p].Verifying? ensures w.procs[p].token != h {
      assert VerifierGood(cfg, w, w.procs[p]);
    }
  }

  lemma TakeTokenKeepsUses(cfg: Config, w: World, w': World, pid: nat, h: Digest)
    requires UsesApart(w) && RecordsGood(cfg, w) && TakesToken(w, w', pid, h)
    ensures UsesApart(w')
  {
    forall i | 0 <= i < |w.uses| ensures !SameKey(w.uses[i], TokenUse(h, w.now, w.tokens[h].expiresAt)) {
      assert UseGood(w, w.uses[i]);
    }
  }

  lemma TakeTokenKeepsRecords(cfg: Config, w: World, w': World, pid: nat, h: Digest)
    requires RecordsGood(cfg, w) && Later(w, w') && TakesToken(w, w', pid, h) && SpentToken(w', h)
    ensures RecordsGood(cfg, w')
  {
    RecordsLast(cfg, w, w');
    assert UseGood(w', TokenUse(h, w.now, w.tokens[h].expiresAt));
    hide Later, SpentToken, SpentCode, ExchangeGood, UseGood;
  }

  lemma TakeTokenKeepsProcs(cfg: Config, w: World, w': World, pid: nat, h: Digest)
    requires ProcsGood(cfg, w) && Later(w, w') && TakesToken(w, w', pid, h) && VerifierGood(cfg, w', w'.procs[pid])
    ensures ProcsGood(cfg, w')
  {
    hide Later, VerifierGood, ExchangerGood;
    AddedProc(cfg, w, w', pid);
  }

  /** Old processes stay good beside a new good one. */
  lemma AddedProc(cfg: Config, w: World, w': World, pid: nat)
    requires ProcsGood(cfg, w) && Later(w, w') && pid in w'.procs && w'.procs == w.procs[pid := w'.procs[pid]]
    requires w'.procs[pid].Verifying? ==> VerifierGood(cfg, w', w'.procs[pid])
    requires w'.procs[pid].Exchanging? ==> ExchangerGood(cfg, w', w'.procs[pid])
    ensures ProcsGood(cfg, w')
  {
    hide Later, VerifierGood, ExchangerGood;
    forall p | p in w'.procs && w'.procs[p].Verifying? ensures VerifierGood(cfg, w', w'.procs[p]) {
      if p != pid { VerifierLasts(cfg, w, w', w.procs[p]); }
    }
    forall p | p in w'.procs && w'.procs[p].Exchanging? ensures ExchangerGood(cfg, w', w'.procs[p]) {
      if p != pid { ExchangerLasts(cfg, w, w', w.procs[p]); }
    }
  }

  lemma TakeTokenKeepsProtocol(cfg: Config, w: World, w': World, pid: nat, h: Digest)
    requires Protocol(cfg, w) && TakesToken(w, w', pid, h)
    ensures Protocol(cfg, w')
  {
    hide Known, TokensGood, ProcsGood, RecordsGood, TokensApart, UsesApart, Later, SpentToken, VerifierGood;
    TakeTokenIsLater(w, w', pid, h);
    TakeTokenKeepsTokens(cfg, w, w', pid, h);
    TakeTokenKeepsProcs(cfg, w, w', pid, h);
    TakeTokenKeepsRecords(cfg, w, w', pid, h);
    TakeTokenKeepsApart(cfg, w, w', pid, h);
    TakeTokenKeepsUses(cfg, w, w', pid, h);
  }

  // ----- minting -----

  ghost predicate Mints(cfg: Config, w: World, w': World, pid: nat, c: Digest, row: Code, m: Minted) {
    && pid in w.procs && w.procs[pid].Verifying? && m.token == w.procs[pid].token
    && c.preimage !in w.secrets && FromMint(row, m) && m.at == w.now
    && m.org == w.procs[pid].rec.org && m.challenge == w.procs[pid].rec.challenge && m.stamp <= m.at
    && Destination(cfg, w.procs[pid].rec.redirect).Some?
    && Destination(cfg, w.procs[pid].rec.redirect).value.origin == Some(m.origin)
    && w'.codes == w.codes[c := row] && w'.mints == w.mints[c := m] && w'.secrets == w.secrets + {c.preimage}
    && w'.procs == w.procs - {pid}
    && w'.tokens == w.tokens && w'.requests == w.requests && w'.exchanges == w.exchanges && w'.uses == w.uses
    && w'.now == w.now
  }

  lemma MintIsLater(cfg: Config, w: World, w': World, pid: nat, c: Digest, row: Code, m: Minted)
    requires Known(w) && Mints(cfg, w, w', pid, c, row, m)
    ensures Known(w') && Later(w, w') && c !in w.codes && c !in w.mints
  {
  }

  /** The new code answers the request behind the verify's token. */
  lemma MintIsGood(cfg: Config, w: World, w': World, pid: nat, c: Digest, row: Code, m: Minted)
    requires TokensGood(cfg, w) && ProcsGood(cfg, w) && Mints(cfg, w, w', pid, c, row, m)
    ensures MintGood(cfg, w', m)
  {
    assert VerifierGood(cfg, w, w.procs[pid]);
    assert RequestGood(w, w.requests[m.token]);
  }

  lemma MintKeepsTokens(cfg: Config, w: World, w': World, pid: nat, c: Digest, row: Code, m: Minted)
    requires TokensGood(cfg, w) && Mints(cfg, w, w', pid, c, row, m) && Later(w, w') && c !in w.codes && MintGood(cfg, w', m)
    ensures TokensGood(cfg, w')
  {
    TokenFactsLast(cfg, w, w');
    CodeFactsLast(w, w');
    assert CodeGood(w', c, row);
    hide Later, RequestGood, TokenGood, MintGood, CodeGood, SpentToken, SpentCode;
  }

  lemma MintKeepsApart(cfg: Config, w: World, w': World, pid: nat, c: Digest, row: Code, m: Minted)
    requires TokensApart(w) && Mints(cfg, w, w', pid, c, row, m)
    ensures TokensApart(w')
  {
    hide FromMint, Destination, FromRequest;
  }

  lemma MintKeepsProtocol(cfg: Config, w: World, w': World, pid: nat, c: Digest, row: Code, m: Minted)
    requires Protocol(cfg, w) && Mints(cfg, w, w', pid, c, row, m)
    ensures Protocol(cfg, w')
  {
    hide Known, TokensGood, ProcsGood, TokensApart, Later, MintGood, FromMint, Destination;
    MintIsLater(cfg, w, w', pid, c, row, m);
    MintIsGood(cfg, w, w', pid, c, row, m);
    MintKeepsTokens(cfg, w, w', pid, c, row, m);
    MintKeepsApart(cfg, w, w', pid, c, row, m);
    QuietProcs(cfg, w, w');
    RecordsLast(cfg, w, w');
  }

  // ----- the step that consumes a code -----

  ghost predicate TakesCode(cfg: Config, w: World, w': World, pid: nat, c: Digest, x: Proc) {
    && pid !in w.procs && c in w.codes && !w.codes[c].consumed && w.codes[c].expiresAt > w.now
    && x.Exchanging? && x.code == c && x.row == w.codes[c] && x.at == w.now && x.origin == x.row.origin
    && IsCodeVerifier(x.verifier)
    && w'.codes == MarkCode(w.codes, c)
    && (w'.procs == w.procs
        || (w'.procs == w.procs[pid := x] && PkceChallenge(cfg.sha, x.verifier) == x.row.challenge))
    && w'.uses == w.uses + [CodeUse(c, w.now, w.codes[c].expiresAt, w'.procs != w.procs)]
    && w'.tokens == w.tokens && w'.requests == w.requests && w'.mints == w.mints && w'.exchanges == w.exchanges
    && w'.secrets == w.secrets && w'.now == w.now
  }

  lemma TakeCodeIsLater(cfg: Config, w: World, w': World, pid: nat, c: Digest, x: Proc)
    requires Known(w) && TakesCode(cfg, w, w', pid, c, x)
    ensures Known(w') && Later(w, w') && SpentCode(w', c)
  {
    hide PkceChallenge, IsCodeVerifier;
  }

  lemma TakeCodeKeepsTokens(cfg: Config, w: World, w': World, pid: nat, c: Digest, x: Proc)
    requires TokensGood(cfg, w) && TakesCode(cfg, w, w', pid, c, x) && Later(w, w')
    ensures TokensGood(cfg, w')
  {
    TokenFactsLast(cfg, w, w');
    CodeFactsLast(w, w');
    assert CodeGood(w, c, w.codes[c]);
    assert CodeGood(w', c, w'.codes[c]);
    hide Later, RequestGood, TokenGood, MintGood, CodeGood, SpentToken, SpentCode, PkceChallenge, IsCodeVerifier;
  }

  lemma TakenCodeIsProved(cfg: Config, w: World, w': World, pid: nat, c: Digest, x: Proc)
    requires TokensGood(cfg, w) && TakesCode(cfg, w, w', pid, c, x) && SpentCode(w', c)
    requires PkceChallenge(cfg.sha, x.verifier) == x.row.challenge && w'.procs != w.procs
    ensures ExchangerGood(cfg, w', x)
  {
    assert w'.uses[|w.uses|].hash == c;
    hide PkceChallenge, IsCodeVerifier, AnswersRequest;
    assert CodeGood(w, c, w.codes[c]);
    assert MintGood(cfg, w, w.mints[c]);
  }

  lemma TakeCodeKeepsProcs(cfg: Config, w: World, w': World, pid: nat, c: Digest, x: Proc)
    requires TokensGood(cfg, w) && ProcsGood(cfg, w) && TakesCode(cfg, w, w', pid, c, x) && SpentCode(w', c) && Later(w, w')
    ensures ProcsGood(cfg, w')
  {
    hide Later, PkceChallenge, IsCodeVerifier, TokensGood, ProcsGood, SpentCode, ExchangerGood;
    if w'.procs == w.procs {
      QuietProcs(cfg, w, w');
    } else {
      TakenCodeIsProved(cfg, w, w', pid, c, x);
      AddedProc(cfg, w, w', pid);
    }
  }

  lemma TakeCodeKeepsApart(cfg: Config, w: World, w': World, pid: nat, c: Digest, x: Proc)
    requires CodesApart(w) && TakesCode(cfg, w, w', pid, c, x) && ProcsGood(cfg, w) && RecordsGood(cfg, w)
    ensures CodesApart(w')
  {
    hide PkceChallenge, IsCodeVerifier, FromMint, Proved, FromRequest;
    forall p | p in w.procs && w.procs[p].Exchanging? ensures w.procs[p].code != c {
      assert ExchangerGood(cfg, w, w.procs[p]);
    }
    forall j | 0 <= j < |w.exchanges| ensures w.exchanges[j].code != c {
      assert ExchangeGood(cfg, w, w.exchanges[j]);
    }
  }

  lemma TakeCodeKeepsUses(cfg: Config, w: World, w': World, pid: nat, c: Digest, x: Proc)
    requires UsesApart(w) && RecordsGood(cfg, w) && TakesCode(cfg, w, w', pid, c, x)
    ensures UsesApart(w')
  {
    hide PkceChallenge, IsCodeVerifier;
    forall i | 0 <= i < |w.uses| ensures !SameKey(w.uses[i], CodeUse(c, w.now, w.codes[c].expiresAt, w'.procs != w.procs)) {
      assert UseGood(w, w.uses[i]);
    }
  }

  lemma TakeCodeKeepsRecords(cfg: Config, w: World, w': World, pid: nat, c: Digest, x: Proc)
    requires RecordsGood(cfg, w) && Later(w, w') && TakesCode(cfg, w, w', pid, c, x) && SpentCode(w', c)
    ensures RecordsGood(cfg, w')
  {
    RecordsLast(cfg, w, w');
    assert UseGood(w', CodeUse(c, w.now, w.codes[c].expiresAt, w'.procs != w.procs));
    hide Later, SpentToken, SpentCode, ExchangeGood, UseGood, PkceChallenge, IsCodeVerifier;
  }

  lemma SameVerifiersApart(w: World, w': World)
    requires TokensApart(w) && w'.mints == w.mints
    requires forall p :: p in w'.procs && w'.procs[p].Verifying? ==> p in w.procs && w'.procs[p] == w.procs[p]
    ensures TokensApart(w')
  {
  }

  lemma TakeCodeKeepsTokensApart(cfg: Config, w: World, w': World, pid: nat, c: Digest, x: Proc)
    requires TokensApart(w) && TakesCode(cfg, w, w', pid, c, x)
    ensures TokensApart(w')
  {
    hide PkceChallenge, IsCodeVerifier, TokensApart;
    SameVerifiersApart(w, w');
  }

  lemma TakeCodeKeepsProtocol(cfg: Config, w: World, w': World, pid: nat, c: Digest, x: Proc)
    requires Protocol(cfg, w) && TakesCode(cfg, w, w', pid, c, x)
    ensures Protocol(cfg, w')
  {
    hide Known, TokensGood, ProcsGood, RecordsGood, TokensApart, CodesApart, UsesApart, Later, SpentCode, TakesCode;
    TakeCodeIsLater(cfg, w, w', pid, c, x);
    TakeCodeKeepsTokens(cfg, w, w', pid, c, x);
    TakeCodeKeepsProcs(cfg, w, w', pid, c, x);
    TakeCodeKeepsRecords(cfg, w, w', pid, c, x);
    TakeCodeKeepsApart(cfg, w, w', pid, c, x);
    TakeCodeKeepsUses(cfg, w, w', pid, c, x);
    TakeCodeKeepsTokensApart(cfg, w, w', pid, c, x);
  }

  // ----- the step that completes an exchange -----

  ghost predicate Completes(w: World, w': World, pid: nat, x: Exchanged) {
    && pid in w.procs && w.procs[pid].Exchanging?
    && x.code == w.procs[pid].code && x.org == w.procs[pid].row.org
    && x.verifier == w.procs[pid].verifier && x.origin == w.procs[pid].origin && x.at == w.procs[pid].at
    && w'.procs == w.procs - {pid} && w'.exchanges == w.exchanges + [x]
    && w'.tokens == w.tokens && w'.codes == w.codes && w'.requests == w.requests && w'.mints == w.mints
    && w'.uses == w.uses && w'.secrets == w.secrets && w'.now == w.now
  }

  lemma CompletionIsLater(w: World, w': World, pid: nat, x: Exchanged)
    requires Known(w) && Completes(w, w', pid, x)
    ensures Known(w') && Later(w, w')
  {
  }

  lemma CompletionKeepsRecords(cfg: Config, w: World, w': World, pid: nat, x: Exchanged)
    requires ProcsGood(cfg, w) && RecordsGood(cfg, w) && Later(w, w') && Completes(w, w', pid, x)
    ensures RecordsGood(cfg, w')
  {
    RecordsLast(cfg, w, w');
    assert ExchangerGood(cfg, w, w.procs[pid]);
    assert ExchangeGood(cfg, w', x);
    hide Later, SpentToken, SpentCode, ExchangeGood, UseGood, ExchangerGood, VerifierGood;
  }

  lemma CompletionKeepsApart(w: World, w': World, pid: nat, x: Exchanged)
    requires CodesApart(w) && Completes(w, w', pid, x)
    ensures CodesApart(w')
  {
  }

  lemma CompletionKeepsTokens(cfg: Config, w: World, w': World, pid: nat, x: Exchanged)
    requires TokensGood(cfg, w) && Later(w, w') && Completes(w, w', pid, x)
    ensures TokensGood(cfg, w')
  {
    TokenFactsLast(cfg, w, w');
    CodeFactsLast(w, w');
    hide Later, RequestGood, TokenGood, MintGood, CodeGood, SpentToken, SpentCode;
  }

  lemma CompletionKeepsProtocol(cfg: Config, w: World, w': World, pid: nat, x: Exchanged)
    requires Protocol(cfg, w) && Completes(w, w', pid, x)
    ensures Protocol(cfg, w')
  {
    hide Known, TokensGood, ProcsGood, RecordsGood, TokensApart, CodesApart, Later;
    CompletionIsLater(w, w', pid, x);
    SameVerifiersApart(w, w');
    CompletionKeepsTokens(cfg, w, w', pid, x);
    CompletionKeepsRecords(cfg, w, w', pid, x);
    CompletionKeepsApart(w, w', pid, x);
    QuietProcs(cfg, w, w');
  }
}
