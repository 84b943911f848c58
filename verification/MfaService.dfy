/** Factors, recovery codes and the check of a login code. TOTP validation is a parameter. */
module MfaService {
  import opened Prelude
  import opened Sessions
  import opened MfaGate

  datatype FactorType = Totp | WebAuthn

  datatype Factor = Factor(id: Id, user: Id, kind: FactorType, secret: string, verified: bool)

  /** What `ListByUserID` reads: every column of the row except its secret. */
  function Listed(f: Factor): Factor {
    f.(secret := "")
  }

  predicate ListedFrom(factors: seq<Factor>, user: Id, row: Factor) {
    exists k :: 0 <= k < |factors| && factors[k].user == user && row == Listed(factors[k])
  }

  predicate TotpMatches(totp: (string, string) -> bool, f: Factor, user: Id, factorId: Option<Id>, code: string) {
    && f.user == user && f.kind == Totp
    && match factorId
       case Some(id) => f.id == id && totp(code, f.secret)
       case None => f.verified && totp(code, "")
  }

  predicate FactorAccepts(totp: (string, string) -> bool, factors: seq<Factor>, user: Id, factorId: Option<Id>, code: string) {
    exists k :: 0 <= k < |factors| && TotpMatches(totp, factors[k], user, factorId, code)
  }

  /** Whether a login code is accepted: by a factor, or as an unused recovery code. */
  predicate LoginAccepted(totp: (string, string) -> bool, factors: seq<Factor>, codes: map<nat, RecoveryCode>,
                          user: Id, factorId: Option<Id>, code: string)
  {
    Trim(code) != "" &&
    (FactorAccepts(totp, factors, user, factorId, Trim(code))
     || exists c :: c in codes && codes[c] == RecoveryCode(user, Sha256(Trim(code)), false))
  }

  /** Without a factor id the enrolled secrets make no difference at all. */
  lemma SecretsPlayNoPart(totp: (string, string) -> bool, factors: seq<Factor>, factors': seq<Factor>,
                          codes: map<nat, RecoveryCode>, user: Id, code: string)
    requires |factors| == |factors'| && forall k :: 0 <= k < |factors| ==> Listed(factors[k]) == Listed(factors'[k])
    ensures LoginAccepted(totp, factors, codes, user, None, code) <==> LoginAccepted(totp, factors', codes, user, None, code)
  {
    hide Trim;
    forall k | 0 <= k < |factors|
      ensures TotpMatches(totp, factors[k], user, None, Trim(code)) <==> TotpMatches(totp, factors'[k], user, None, Trim(code))
    {
      assert Listed(factors[k]).verified == factors[k].verified && Listed(factors'[k]).verified == factors'[k].verified;
      assert Listed(factors[k]).kind == factors[k].kind && Listed(factors'[k]).kind == factors'[k].kind;
      assert Listed(factors[k]).user == factors[k].user && Listed(factors'[k]).user == factors'[k].user;
    }
  }

  /** So a code that is right for the user's only factor is accepted when the factor is named and, unless
      it also fits the empty secret, refused when it is not. */
  lemma RightCodeNeedsItsFactorId(totp: (string, string) -> bool, f: Factor, code: string)
    requires f.kind == Totp && f.verified && Trim(code) != "" && totp(Trim(code), f.secret)
    ensures LoginAccepted(totp, [f], map[], f.user, Some(f.id), code)
    ensures LoginAccepted(totp, [f], map[], f.user, None, code) <==> totp(Trim(code), "")
  {
    hide Trim;
    assert TotpMatches(totp, [f][0], f.user, Some(f.id), Trim(code));
    assert totp(Trim(code), "") ==> TotpMatches(totp, [f][0], f.user, None, Trim(code));
  }

  /** The named factor is a TOTP factor of the user and its secret fits the code. */
  ghost predicate NamedFits(totp: (string, string) -> bool, factors: seq<Factor>, user: Id, id: Id, code: string) {
    exists f :: f in factors && f.id == id && f.user == user && f.kind == Totp && totp(code, f.secret)
  }

  /** The user has an unused recovery code with the hash. */
  ghost predicate Unused(codes: map<nat, RecoveryCode>, user: Id, hash: Digest) {
    exists c :: c in codes && codes[c].user == user && codes[c].hash == hash && !codes[c].used
  }

  /** The user has a verified TOTP factor, and the code fits the empty secret. */
  ghost predicate EmptyFits(totp: (string, string) -> bool, factors: seq<Factor>, user: Id, code: string) {
    totp(code, "") && exists f :: f in factors && f.user == user && f.kind == Totp && f.verified
  }

  class Service {
    const totp: (string, string) -> bool
    var factors: seq<Factor>
    var codes: map<nat, RecoveryCode>

    constructor (totp: (string, string) -> bool)
      ensures this.totp == totp && factors == [] && codes == map[]
    {
      this.totp := totp;
      factors := [];
      codes := map[];
    }

    /** The factor ids are a primary key. */
    ghost predicate Valid()
      reads this
    {
      forall i, j :: 0 <= i < j < |factors| ==> factors[i].id != factors[j].id
    }

    method ListByUser(user: Id) returns (rows: seq<Factor>)
      ensures forall i :: 0 <= i < |rows| ==> ListedFrom(factors, user, rows[i])
      ensures forall k :: 0 <= k < |factors| && factors[k].user == user ==> Listed(factors[k]) in rows
    {
      rows := [];
      for n := 0 to |factors|
        invariant forall i :: 0 <= i < |rows| ==> ListedFrom(factors, user, rows[i])
        invariant forall k :: 0 <= k < n && factors[k].user == user ==> Listed(factors[k]) in rows
      {
        if factors[n].user == user {
          rows := rows + [Listed(factors[n])];
        }
      }
    }

    method UserHasMfa(user: Id) returns (has: bool)
      ensures has <==> exists k :: 0 <= k < |factors| && factors[k].user == user && factors[k].verified
    {
      var rows := ListByUser(user);
      for n := 0 to |rows|
        invariant forall i :: 0 <= i < n ==> !rows[i].verified
      {
        if rows[n].verified {
          return true;
        }
      }
      forall k | 0 <= k < |factors| && factors[k].user == user ensures !factors[k].verified {
        var i :| 0 <= i < |rows| && rows[i] == Listed(factors[k]);
      }
      return false;
    }

    /** Accepts a code for the named factor, marking the factor verified if it was not. */
    method VerifyTotp(user: Id, factorId: Id, code: string) returns (ok: bool)
      requires Valid()
      modifies this`factors
      ensures Valid() && |factors| == |old(factors)|
      ensures ok <==> exists k :: 0 <= k < |old(factors)| && TotpMatches(totp, old(factors)[k], user, Some(factorId), code)
      ensures forall k :: 0 <= k < |factors| ==>
        factors[k] == if ok && factors[k].id == factorId then old(factors)[k].(verified := true) else old(factors)[k]
    {
      var n := 0;
      while n < |factors|
        invariant 0 <= n <= |factors| && factors == old(factors)
        invariant forall k :: 0 <= k < n ==> factors[k].id != factorId
      {
        if factors[n].id == factorId {
          if factors[n].user != user || factors[n].kind != Totp || !totp(code, factors[n].secret) {
            return false;
          }
          assert TotpMatches(totp, old(factors)[n], user, Some(factorId), code);
          factors := factors[n := factors[n].(verified := true)];
          return true;
        }
        n := n + 1;
      }
      return false;
    }

    /** Uses up the user's unused code with the hash, if there is one. No other code changes, and none does
        when there is none. */
    method UseRecoveryCode(user: Id, hash: Digest) returns (ok: bool)
      modifies this`codes
      ensures ok <==> exists c :: c in old(codes) && old(codes)[c] == RecoveryCode(user, hash, false)
      ensures codes == SpendCode(old(codes), user, hash)
      ensures codes.Keys == old(codes).Keys && (!ok ==> codes == old(codes))
      ensures forall c :: c in codes ==>
        if old(codes)[c] == RecoveryCode(user, hash, false) then codes[c] == RecoveryCode(user, hash, true)
        else codes[c] == old(codes)[c]
    {
      ok := exists c :: c in codes && codes[c] == RecoveryCode(user, hash, false);
      codes := map c | c in codes ::
        if codes[c].user == user && codes[c].hash == hash then codes[c].(used := true) else codes[c];
    }

    /** Whether some listed, verified TOTP factor accepts the code. */
    method AnyListedTotp(user: Id, code: string) returns (ok: bool)
      ensures ok <==> exists k :: 0 <= k < |factors| && TotpMatches(totp, factors[k], user, None, code)
    {
      var rows := ListByUser(user);
      for n := 0 to |rows|
        invariant forall i :: 0 <= i < n ==> !(rows[i].verified && rows[i].kind == Totp && totp(code, rows[i].secret))
      {
        if rows[n].verified && rows[n].kind == Totp && totp(code, rows[n].secret) {
          ghost var k :| 0 <= k < |factors| && factors[k].user == user && rows[n] == Listed(factors[k]);
          assert TotpMatches(totp, factors[k], user, None, code);
          return true;
        }
      }
      forall k | 0 <= k < |factors| ensures !TotpMatches(totp, factors[k], user, None, code) {
        if factors[k].user == user {
          var i :| 0 <= i < |rows| && rows[i] == Listed(factors[k]);
        }
      }
      return false;
    }

    /** The login code is accepted for a matching factor, else for an unused recovery code, which it
        spends; a factor match spends none, and a refused code changes nothing. A named factor that matches is
        verified from then on; no other factor changes. Without a factor id the enrolled secrets play no part:
        the listing the code loops over does not read them. */
    method VerifyLoginCode(user: Id, factorId: Option<Id>, code: string) returns (ok: bool)
      requires Valid()
      modifies this
      ensures Valid() && |factors| == |old(factors)|
      ensures ok <==> LoginAccepted(totp, old(factors), old(codes), user, factorId, code)
      ensures codes ==
        if Trim(code) == "" || FactorAccepts(totp, old(factors), user, factorId, Trim(code)) then old(codes)
        else SpendCode(old(codes), user, Sha256(Trim(code)))
      ensures forall k :: 0 <= k < |factors| ==>
        factors[k] ==
          if factorId.Some? && Trim(code) != "" && TotpMatches(totp, old(factors)[k], user, factorId, Trim(code)) then
            old(factors)[k].(verified := true)
          else old(factors)[k]
      // the same, factor by factor and code by code
      ensures ok ==> Trim(code) != ""
      ensures Trim(code) != "" && factorId.Some? ==>
        ok == (NamedFits(totp, old(factors), user, factorId.value, Trim(code)) || Unused(old(codes), user, Sha256(Trim(code))))
      ensures Trim(code) != "" && factorId.None? ==>
        ok == (EmptyFits(totp, old(factors), user, Trim(code)) || Unused(old(codes), user, Sha256(Trim(code))))
      ensures codes.Keys == old(codes).Keys && (!ok ==> codes == old(codes) && factors == old(factors))
      ensures forall c :: c in codes && codes[c] != old(codes)[c] ==>
        old(codes)[c] == RecoveryCode(user, Sha256(Trim(code)), false) && codes[c] == RecoveryCode(user, Sha256(Trim(code)), true)
      ensures ok && !FactorAccepts(totp, old(factors), user, factorId, Trim(code)) ==>
        forall c :: c in codes ==> codes[c] != RecoveryCode(user, Sha256(Trim(code)), false)
    {
      hide Trim;
      var attempt := Trim(code);
      if attempt == "" {
        return false;
      }
      match factorId {
        case Some(id) =>
          ok := VerifyTotp(user, id, attempt);
        case None =>
          ok := AnyListedTotp(user, attempt);
      }
      if !ok {
        ok := UseRecoveryCode(user, Sha256(attempt));
      }
    }
  }
}
