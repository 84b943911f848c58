/** The in-process fixed-window rate limiter: a keyed counter table with a lazy sweep. */
module WindowLimiter {

  datatype Entry = Entry(count: nat, reset: int)

  type Table = map<string, Entry>

  datatype Call = Call(now: int, key: string, limit: int, window: int)

  // ----- the counter, as one function of the table -----

  function Current(entries: Table, c: Call): Entry {
    if c.key in entries && c.now <= entries[c.key].reset then entries[c.key]
    else Entry(0, c.now + c.window)
  }

  function Bump(entries: Table, c: Call): Table {
    var e := Current(entries, c);
    entries[c.key := Entry(e.count + 1, e.reset)]
  }

  function Within(entries: Table, c: Call): bool {
    Current(entries, c).count + 1 <= c.limit
  }

  function Sweep(entries: Table, now: int): Table {
    map k | k in entries && now <= entries[k].reset :: entries[k]
  }

  datatype State = State(entries: Table, sweepAt: int)

  function Swept(s: State, c: Call): State {
    if c.now > s.sweepAt then State(Sweep(s.entries, c.now), c.now + c.window) else s
  }

  function AfterCall(s: State, c: Call): State {
    if c.limit <= 0 then s
    else
      var s' := Swept(s, c);
      s'.(entries := Bump(s'.entries, c))
  }

  function Answer(s: State, c: Call): bool {
    c.limit <= 0 || Within(Swept(s, c).entries, c)
  }

  class MemoryWindowLimiter {
    var entries: map<string, Entry>
    var sweepAt: int

    ghost function View(): State
      reads this
    {
      State(entries, sweepAt)
    }

    constructor ()
      ensures View() == State(map[], 0)
    {
      entries := map[];
      sweepAt := 0;
    }

    method Allow(now: int, key: string, limit: int, window: int) returns (ok: bool)
      modifies this
      ensures View() == AfterCall(old(View()), Call(now, key, limit, window))
      ensures ok == Answer(old(View()), Call(now, key, limit, window))
      ensures limit <= 0 ==> ok && View() == old(View())
      // on the table alone: a window still open counts on, otherwise a new one begins
      ensures limit > 0 ==>
        var open := key in old(entries) && now <= old(entries)[key].reset;
        && key in entries
        && entries[key] == (if open then Entry(old(entries)[key].count + 1, old(entries)[key].reset) else Entry(1, now + window))
        && (ok <==> entries[key].count <= limit)
      ensures sweepAt == if limit > 0 && now > old(sweepAt) then now + window else old(sweepAt)
      ensures forall k :: k in old(entries) && k !in entries ==> limit > 0 && now > old(sweepAt)
      ensures forall k :: k in entries && k != key ==> k in old(entries) && entries[k] == old(entries)[k]
      ensures forall k :: k in old(entries) && k != key && k !in entries ==> old(entries)[k].reset < now
    {
      if limit <= 0 {
        return true;
      }
      ghost var c := Call(now, key, limit, window);
      if now > sweepAt {
        DeleteExpired(now);
        sweepAt := now + window;
      }
      if key !in entries || now > entries[key].reset {
        entries := entries[key := Entry(0, now + window)];
      }
      entries := entries[key := Entry(entries[key].count + 1, entries[key].reset)];
      assert entries == Bump(Swept(old(View()), c).entries, c);
      return entries[key].count <= limit;
    }

    method DeleteExpired(now: int)
      modifies this`entries
      ensures entries == Sweep(old(entries), now)
    {
      var pending := entries.Keys;
      while pending != {}
        invariant pending <= entries.Keys <= old(entries).Keys
        invariant forall k :: k in entries ==> entries[k] == old(entries)[k]
        invariant forall k :: k in old(entries) && k !in pending ==>
          (k in entries <==> now <= old(entries)[k].reset)
        decreases |pending|
      {
        var k :| k in pending;
        pending := pending - {k};
        if now > entries[k].reset {
          entries := entries - {k};
        }
      }
    }
  }

  // ----- runs -----

  /** The clock never goes back between calls. */
  predicate Monotone(calls: seq<Call>) {
    forall i, j :: 0 <= i < j < |calls| ==> calls[i].now <= calls[j].now
  }

  /** The limiter after a sequence of calls on a new instance. */
  function LazyState(calls: seq<Call>): State {
    if calls == [] then State(map[], 0)
    else AfterCall(LazyState(calls[..|calls| - 1]), calls[|calls| - 1])
  }

  /** What the last call of the sequence answered. */
  function LastAnswer(calls: seq<Call>): bool
    requires calls != []
  {
    Answer(LazyState(calls[..|calls| - 1]), calls[|calls| - 1])
  }

  /** The same counter without any sweep: the table only grows. */
  function PlainTable(calls: seq<Call>): Table {
    if calls == [] then map[]
    else
      var c := calls[|calls| - 1];
      var t := PlainTable(calls[..|calls| - 1]);
      if c.limit <= 0 then t else Bump(t, c)
  }

  function LastPlainAnswer(calls: seq<Call>): bool
    requires calls != []
  {
    var c := calls[|calls| - 1];
    c.limit <= 0 || Within(PlainTable(calls[..|calls| - 1]), c)
  }

  /** Some entries of the plain table are missing, but only ones that have already expired. */
  ghost predicate Covers(swept: Table, plain: Table, now: int) {
    && (forall k :: k in swept ==> k in plain && swept[k] == plain[k])
    && (forall k :: k in plain && k !in swept ==> plain[k].reset < now)
  }

  lemma CoversStep(s: State, plain: Table, c: Call)
    requires c.limit > 0 && Covers(s.entries, plain, c.now)
    ensures Covers(AfterCall(s, c).entries, Bump(plain, c), c.now)
    ensures Answer(s, c) == Within(plain, c)
  {
    assert Covers(Swept(s, c).entries, plain, c.now);
    assert Current(Swept(s, c).entries, c) == Current(plain, c);
  }

  lemma {:induction false} SweepIsInvisibleAt(calls: seq<Call>, now: int)
    requires Monotone(calls) && (calls != [] ==> calls[|calls| - 1].now <= now)
    ensures Covers(LazyState(calls).entries, PlainTable(calls), now)
    ensures calls != [] ==> LastAnswer(calls) == LastPlainAnswer(calls)
  {
    if calls != [] {
      var c := calls[|calls| - 1];
      SweepIsInvisibleAt(calls[..|calls| - 1], c.now);
      if c.limit > 0 {
        CoversStep(LazyState(calls[..|calls| - 1]), PlainTable(calls[..|calls| - 1]), c);
      }
    }
  }

  /** The lazy sweep never changes an answer, whatever keys, limits and windows are mixed. */
  lemma SweepIsInvisible(calls: seq<Call>)
    requires Monotone(calls)
    ensures forall n :: 0 < n <= |calls| ==> LastAnswer(calls[..n]) == LastPlainAnswer(calls[..n])
  {
    forall n | 0 < n <= |calls| ensures LastAnswer(calls[..n]) == LastPlainAnswer(calls[..n]) {
      SweepIsInvisibleAt(calls[..n], calls[n - 1].now);
    }
  }

  // ----- memory bound -----

  /** Keys hit (and counted) at or after `since`. */
  function KeysHitSince(calls: seq<Call>, since: int): set<string> {
    set i | 0 <= i < |calls| && calls[i].limit > 0 && calls[i].now >= since :: calls[i].key
  }

  ghost predicate HitAt(calls: seq<Call>, key: string, at: int) {
    exists i :: 0 <= i < |calls| && calls[i].limit > 0 && calls[i].key == key && calls[i].now == at
  }

  lemma HitAtLater(calls: seq<Call>, c: Call, key: string, at: int)
    requires HitAt(calls, key, at) || (c.limit > 0 && c.key == key && c.now == at)
    ensures HitAt(calls + [c], key, at)
  {
    if HitAt(calls, key, at) {
      var i :| 0 <= i < |calls| && calls[i].limit > 0 && calls[i].key == key && calls[i].now == at;
      assert (calls + [c])[i] == calls[i];
    } else {
      assert (calls + [c])[|calls|] == c;
    }
  }

  /** Every entry outlived the last sweep and was opened by a recorded hit. */
  ghost predicate Recent(s: State, calls: seq<Call>, window: int, now: int) {
    && s.sweepAt - window <= now
    && (forall k :: k in s.entries ==> s.entries[k].reset >= s.sweepAt - window)
    && (forall k :: k in s.entries ==> HitAt(calls, k, s.entries[k].reset - window))
  }

  lemma RecentStep(s: State, calls: seq<Call>, c: Call, window: int)
    requires window >= 0 && c.window == window
    requires Recent(s, calls, window, c.now)
    ensures Recent(AfterCall(s, c), calls + [c], window, c.now)
    ensures c.limit > 0 ==> AfterCall(s, c).sweepAt >= c.now
  {
    var s2 := AfterCall(s, c);
    forall k | k in s2.entries
      ensures s2.entries[k].reset >= s2.sweepAt - window
      ensures HitAt(calls + [c], k, s2.entries[k].reset - window)
    {
      HitAtLater(calls, c, k, s2.entries[k].reset - window);
    }
  }

  lemma {:induction false} RecentAlways(calls: seq<Call>, window: int, now: int)
    requires window >= 0 && now >= 0 && Monotone(calls)
    requires forall i :: 0 <= i < |calls| ==> calls[i].window == window && 0 <= calls[i].now <= now
    ensures Recent(LazyState(calls), calls, window, now)
    ensures calls != [] && calls[|calls| - 1].limit > 0 ==> LazyState(calls).sweepAt >= calls[|calls| - 1].now
  {
    hide AfterCall, HitAt;
    if calls != [] {
      var before, c := calls[..|calls| - 1], calls[|calls| - 1];
      assert Monotone(before);
      hide Monotone;
      RecentAlways(before, window, c.now);
      RecentStep(LazyState(before), before, c, window);
      assert before + [c] == calls;
    }
  }

  /** With one window length, every stored entry was opened within the last two windows, so the
      table never holds more entries than there were distinct keys in that time. */
  lemma TableStaysSmall(calls: seq<Call>, window: int, now: int)
    requires window >= 0 && calls != [] && Monotone(calls)
    requires forall i :: 0 <= i < |calls| ==> calls[i].window == window && 0 <= calls[i].now <= now
    requires calls[|calls| - 1].limit > 0 && calls[|calls| - 1].now == now
    ensures forall k :: k in LazyState(calls).entries ==> LazyState(calls).entries[k].reset - window >= now - 2 * window
    ensures |LazyState(calls).entries| <= |KeysHitSince(calls, now - 2 * window)|
  {
    RecentAlways(calls, window, now);
    var s := LazyState(calls);
    var hit := KeysHitSince(calls, now - 2 * window);
    forall k | k in s.entries ensures k in hit {
      var i :| 0 <= i < |calls| && calls[i].limit > 0 && calls[i].key == k && calls[i].now == s.entries[k].reset - window;
    }
    SubsetSize(s.entries.Keys, hit);
  }

  lemma SubsetSize<T>(a: set<T>, b: set<T>)
    requires a <= b
    ensures |a| <= |b|
  {
    assert b == a + (b - a);
  }
}
