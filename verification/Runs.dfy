/** Carrying out a sequence of actions, one step at a time. */
module Runs {

  /** The state a run leads to. */
  function After<S, A>(step: (S, A) -> S, start: S, run: seq<A>): S {
    if run == [] then start else step(After(step, start, run[..|run| - 1]), run[|run| - 1])
  }

  /** `states` are the states passed through when `run` is carried out. */
  ghost predicate Trace<S(!new), A(!new)>(step: (S, A) -> S, start: S, run: seq<A>, states: seq<S>) {
    && |states| == |run| + 1 && states[0] == start
    && forall i {:trigger run[i]} :: 0 <= i < |run| ==> states[i + 1] == step(states[i], run[i])
  }

  /** Carrying out `run` from `start` leads to `s`. */
  ghost predicate Reached<S(!new), A(!new)>(step: (S, A) -> S, start: S, run: seq<A>, s: S) {
    exists states :: Trace(step, start, run, states) && states[|run|] == s
  }

  lemma {:induction false} TraceEndsThere<S(!new), A(!new)>(step: (S, A) -> S, start: S, run: seq<A>, states: seq<S>)
    requires Trace(step, start, run, states)
    ensures states[|run|] == After(step, start, run)
  {
    if run != [] {
      var n := |run| - 1;
      assert forall i :: 0 <= i < n ==> run[..n][i] == run[i];
      TraceEndsThere(step, start, run[..n], states[..n + 1]);
      assert run[n] == run[|run| - 1];
    }
  }

  /** Exactly one state is reached by a run. */
  lemma ReachedIsAfter<S(!new), A(!new)>(step: (S, A) -> S, start: S, run: seq<A>, s: S)
    ensures Reached(step, start, run, s) <==> s == After(step, start, run)
  {
    if Reached(step, start, run, s) {
      var states :| Trace(step, start, run, states) && states[|run|] == s;
      TraceEndsThere(step, start, run, states);
    }
    var states := seq(|run| + 1, i requires 0 <= i <= |run| => After(step, start, run[..i]));
    forall i | 0 <= i < |run| ensures states[i + 1] == step(states[i], run[i]) {
      assert run[..i + 1][..i] == run[..i];
    }
    assert run[..|run|] == run;
    assert Trace(step, start, run, states) && states[|run|] == After(step, start, run);
  }

  lemma {:induction false} AfterBoth<S, A>(step: (S, A) -> S, start: S, run: seq<A>, rest: seq<A>)
    ensures After(step, start, run + rest) == After(step, After(step, start, run), rest)
  {
    if rest == [] {
      assert run + rest == run;
    } else {
      AfterBoth(step, start, run, rest[..|rest| - 1]);
      assert (run + rest)[..|run + rest| - 1] == run + rest[..|rest| - 1];
    }
  }
}
