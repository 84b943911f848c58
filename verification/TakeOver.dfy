/** Hardening of an unverified account on first proof of inbox ownership, with faults at any store call. */
module TakeOver {
  import opened Prelude
  import opened Sessions

  /** How one store call ends: done, failed without effect, or done with the acknowledgement lost. */
  datatype Outcome = Done | Failed | Lost

  /** Everything an account can hold, for all accounts. */
  datatype Accounts = Accounts(sessions: Table, passwords: set<Id>, factors: map<Id, Id>,
                               recovery: map<nat, Id>, verified: set<Id>)

  function FactorsOf(a: Accounts, user: Id): set<Id> {
    set f | f in a.factors && a.factors[f] == user
  }

  function RecoveryOf(a: Accounts, user: Id): set<nat> {
    set c | c in a.recovery && a.recovery[c] == user
  }

  function OpenSessions(a: Accounts, user: Id): set<Id> {
    set s | s in a.sessions && a.sessions[s].user == user && !a.sessions[s].revoked
  }

  /** Nothing planted earlier is left: no usable session, password, factor or recovery code. */
  predicate Clean(a: Accounts, user: Id) {
    && OpenSessions(a, user) == {}
    && user !in a.passwords
    && FactorsOf(a, user) == {}
    && RecoveryOf(a, user) == {}
  }

  /** `after` holds no more of the user's secrets than `before`, and the same for everyone else. */
  predicate Shrinks(before: Accounts, after: Accounts, user: Id) {
    && after.sessions.Keys == before.sessions.Keys
    && (forall s :: s in before.sessions ==>
          after.sessions[s] == before.sessions[s] ||
          (before.sessions[s].user == user && after.sessions[s] == before.sessions[s].(revoked := true)))
    && before.passwords - {user} <= after.passwords <= before.passwords
    && (forall f :: f in after.factors ==> f in before.factors && after.factors[f] == before.factors[f])
    && (forall f :: f in before.factors && before.factors[f] != user ==> f in after.factors)
    && (forall c :: c in after.recovery ==> c in before.recovery && after.recovery[c] == before.recovery[c])
    && (forall c :: c in before.recovery && before.recovery[c] != user ==> c in after.recovery)
    && before.verified <= after.verified <= before.verified + {user}
  }

  /** The contract of one attempt: it only shrinks; the address becomes verified only once nothing
      planted is left; success means both; and without faults it succeeds. */
  predicate Attempt(before: Accounts, after: Accounts, user: Id, ok: bool, faultless: bool, acked: bool) {
    && Shrinks(before, after, user)
    && (ok ==> Clean(after, user) && user in after.verified)
    && (user in after.verified && user !in before.verified ==> Clean(after, user))
    && (!ok && acked ==> after.verified == before.verified)
    && (faultless ==> ok)
  }

  class AccountDb {
    var sessions: map<Id, Session>
    var passwords: set<Id>
    var factors: map<Id, Id>
    var recovery: map<nat, Id>
    var verified: set<Id>

    constructor ()
      ensures View() == Accounts(map[], {}, map[], map[], {})
    {
      sessions := map[];
      passwords := {};
      factors := map[];
      recovery := map[];
      verified := {};
    }

    function View(): Accounts
      reads this
    {
      Accounts(sessions, passwords, factors, recovery, verified)
    }

    /** Store calls return whether they reported success; a lost acknowledgement still takes effect. */
    method RevokeAllSessions(user: Id, o: Outcome) returns (ok: bool)
      modifies this`sessions
      ensures ok == o.Done?
      ensures sessions == if o.Failed? then old(sessions) else RevokeForUser(old(sessions), user, None)
      ensures Shrinks(old(View()), View(), user)
    {
      if !o.Failed? {
        sessions := map s | s in sessions ::
          if sessions[s].user == user then sessions[s].(revoked := true) else sessions[s];
      }
      return o.Done?;
    }

    method DeletePassword(user: Id, o: Outcome) returns (ok: bool)
      modifies this`passwords
      ensures ok == o.Done?
      ensures passwords == if o.Failed? then old(passwords) else old(passwords) - {user}
      ensures Shrinks(old(View()), View(), user)
    {
      if !o.Failed? {
        passwords := passwords - {user};
      }
      return o.Done?;
    }

    method ListFactors(user: Id, o: Outcome) returns (ok: bool, list: set<Id>)
      ensures ok == o.Done?
      ensures list == FactorsOf(View(), user)
    {
      return o.Done?, set f | f in factors && factors[f] == user;
    }

    method DeleteFactor(f: Id, user: Id, o: Outcome) returns (ok: bool)
      modifies this`factors
      ensures ok == o.Done?
      ensures factors == if o.Failed? || f !in old(factors) || old(factors)[f] != user then old(factors) else old(factors) - {f}
    {
      if !o.Failed? && f in factors && factors[f] == user {
        factors := factors - {f};
      }
      return o.Done?;
    }

    method DeleteRecoveryCodes(user: Id, o: Outcome) returns (ok: bool)
      modifies this`recovery
      ensures ok == o.Done?
      ensures recovery == if o.Failed? then old(recovery) else map c | c in old(recovery) && old(recovery)[c] != user :: old(recovery)[c]
      ensures Shrinks(old(View()), View(), user)
    {
      if !o.Failed? {
        recovery := map c | c in recovery && recovery[c] != user :: recovery[c];
      }
      return o.Done?;
    }

    method SetEmailVerified(user: Id, o: Outcome) returns (ok: bool)
      modifies this`verified
      ensures ok == o.Done?
      ensures verified == if o.Failed? then old(verified) else old(verified) + {user}
      ensures Shrinks(old(View()), View(), user)
    {
      if !o.Failed? {
        verified := verified + {user};
      }
      return o.Done?;
    }

    /** The factor deletion loop: stops at the first reported error. */
    method DeleteListedFactors(user: Id, list: set<Id>, oracle: nat -> Outcome, first: nat) returns (ok: bool, next: nat)
      modifies this`factors
      ensures forall f :: f in factors ==> f in old(factors) && factors[f] == old(factors)[f]
      ensures forall f :: f in old(factors) && old(factors)[f] != user ==> f in factors
      ensures ok ==> forall f :: f in list && f in factors ==> factors[f] != user
      ensures first <= next
      ensures !ok ==> exists k :: first <= k < next && !oracle(k).Done?
      ensures Shrinks(old(View()), View(), user)
    {
      var pending := list;
      next := first;
      while pending != {}
        invariant pending <= list && first <= next
        invariant forall f :: f in factors ==> f in old(factors) && factors[f] == old(factors)[f]
        invariant forall f :: f in old(factors) && old(factors)[f] != user ==> f in factors
        invariant forall f :: f in list && f !in pending && f in factors ==> factors[f] != user
        decreases |pending|
      {
        var f :| f in pending;
        pending := pending - {f};
        ok := DeleteFactor(f, user, oracle(next));
        next := next + 1;
        if !ok {
          assert !oracle(next - 1).Done?;
          return false, next;
        }
      }
      return true, next;
    }

    /** Sessions, password, factors and recovery codes go before the address is marked verified. */
    method TakeOver(user: Id, oracle: nat -> Outcome) returns (ok: bool)
      modifies this
      ensures Attempt(old(View()), View(), user, ok, forall k :: oracle(k).Done?, forall k :: !oracle(k).Lost?)
      // sessions go first, then the password: whatever fails later, they are gone
      ensures oracle(0).Failed? ==> View() == old(View())
      ensures !oracle(0).Failed? ==> OpenSessions(View(), user) == {}
      ensures oracle(0).Done? && !oracle(1).Failed? ==> user !in passwords
      ensures !oracle(0).Done? ==> passwords == old(passwords)
      ensures !oracle(0).Done? || !oracle(1).Done? ==> factors == old(factors) && recovery == old(recovery)
    {
      hide Shrinks, Clean;
      ghost var start := View();
      var cleared, next := Harden(user, oracle);
      if !cleared {
        assert exists k :: !oracle(k).Done?;
        return false;
      }
      ghost var hardened := View();
      ok := SetEmailVerified(user, oracle(next));
      ShrinksTransitive(start, hardened, View(), user);
      CleanStaysClean(hardened, View(), user);
      assert !ok ==> !oracle(next).Done?;
      assert !oracle(next).Lost? || !forall k :: !oracle(k).Lost?;
    }

    /** Everything but the last statement. */
    method Harden(user: Id, oracle: nat -> Outcome) returns (ok: bool, next: nat)
      modifies this`sessions, this`passwords, this`factors, this`recovery
      ensures Shrinks(old(View()), View(), user)
      ensures ok ==> Clean(View(), user)
      ensures !ok ==> exists k :: !oracle(k).Done?
      ensures oracle(0).Failed? ==> View() == old(View()) && !ok
      ensures !oracle(0).Failed? ==> OpenSessions(View(), user) == {}
      ensures oracle(0).Done? && !oracle(1).Failed? ==> user !in passwords
      ensures !oracle(0).Done? ==> passwords == old(passwords) && !ok
      ensures !oracle(0).Done? || !oracle(1).Done? ==> factors == old(factors) && recovery == old(recovery) && !ok
    {
      hide Shrinks;
      ghost var v0 := View();
      next := 3;
      ok := RevokeAllSessions(user, oracle(0));
      if !ok {
        assert !oracle(0).Done?;
        return;
      }
      ghost var v1 := View();
      ok := DeletePassword(user, oracle(1));
      ShrinksTransitive(v0, v1, View(), user);
      if !ok {
        assert !oracle(1).Done?;
        return;
      }
      ghost var v2 := View();
      ok, next := ClearFactors(user, oracle);
      ShrinksTransitive(v0, v2, View(), user);
    }

    /** Factors and recovery codes. */
    method ClearFactors(user: Id, oracle: nat -> Outcome) returns (ok: bool, next: nat)
      modifies this`factors, this`recovery
      ensures Shrinks(old(View()), View(), user)
      ensures ok ==> FactorsOf(View(), user) == {} && RecoveryOf(View(), user) == {}
      ensures !ok ==> exists k :: !oracle(k).Done?
    {
      assert Shrinks(View(), View(), user);
      hide Shrinks;
      next := 3;
      var list;
      ok, list := ListFactors(user, oracle(2));
      if !ok {
        assert !oracle(2).Done?;
        return;
      }
      ghost var v0 := View();
      ok, next := DeleteListedFactors(user, list, oracle, 3);
      if !ok {
        return;
      }
      assert FactorsOf(View(), user) == {};
      ghost var v1 := View();
      ok := DeleteRecoveryCodes(user, oracle(next));
      ShrinksTransitive(v0, v1, View(), user);
      next := next + 1;
      assert !ok ==> !oracle(next - 1).Done?;
    }
  }

  // ----- any number of attempts -----

  datatype Try = Try(after: Accounts, ok: bool, faultless: bool, acked: bool)

  ghost function Latest(start: Accounts, tries: seq<Try>): Accounts {
    if tries == [] then start else tries[|tries| - 1].after
  }

  /** Each attempt starts from where the previous one, complete or not, left the account. */
  ghost predicate Attempts(start: Accounts, tries: seq<Try>, user: Id) {
    tries == [] ||
    var before, t := tries[..|tries| - 1], tries[|tries| - 1];
    Attempts(start, before, user) && Attempt(Latest(start, before), t.after, user, t.ok, t.faultless, t.acked)
  }

  lemma ShrinksTransitive(a: Accounts, b: Accounts, c: Accounts, user: Id)
    requires Shrinks(a, b, user) && Shrinks(b, c, user)
    ensures Shrinks(a, c, user)
  {
  }

  lemma CleanStaysClean(a: Accounts, b: Accounts, user: Id)
    requires Shrinks(a, b, user) && Clean(a, user)
    ensures Clean(b, user)
  {
    assert forall s :: s in OpenSessions(b, user) ==> s in OpenSessions(a, user);
    assert forall f :: f in FactorsOf(b, user) ==> f in FactorsOf(a, user);
    assert forall c :: c in RecoveryOf(b, user) ==> c in RecoveryOf(a, user);
  }

  lemma OneMoreTry(start: Accounts, mid: Accounts, t: Try, user: Id)
    requires Shrinks(start, mid, user) && (user in mid.verified ==> Clean(mid, user))
    requires Attempt(mid, t.after, user, t.ok, t.faultless, t.acked)
    ensures Shrinks(start, t.after, user) && (user in t.after.verified ==> Clean(t.after, user))
    ensures t.faultless || user in mid.verified ==> user in t.after.verified
    ensures !t.ok && t.acked ==> t.after.verified == mid.verified
  {
    ShrinksTransitive(start, mid, t.after, user);
    if Clean(mid, user) {
      CleanStaysClean(mid, t.after, user);
    }
  }

  /** Retrying after failures only takes more away, never leaves the address verified while something
      planted is left, and a single fault-free attempt, at any point, finishes the job for good. */
  lemma {:induction false} RetriesConverge(start: Accounts, tries: seq<Try>, user: Id)
    requires Attempts(start, tries, user) && user !in start.verified
    ensures Shrinks(start, Latest(start, tries), user)
    ensures user in Latest(start, tries).verified ==> Clean(Latest(start, tries), user)
    ensures (exists i :: 0 <= i < |tries| && tries[i].faultless) ==> user in Latest(start, tries).verified
    ensures (forall i :: 0 <= i < |tries| ==> !tries[i].ok && tries[i].acked) ==> user !in Latest(start, tries).verified
  {
    if tries != [] {
      hide Shrinks, Clean, Attempt;
      var before, t := tries[..|tries| - 1], tries[|tries| - 1];
      RetriesConverge(start, before, user);
      OneMoreTry(start, Latest(start, before), t, user);
      if i :| 0 <= i < |tries| && tries[i].faultless && !t.faultless {
        assert before[i].faultless;
      }
    }
  }
}
