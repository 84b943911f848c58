/** How many hits the limiter lets through for one key, whatever other keys do in between. */
module LimiterBounds {
  import opened WindowLimiter

  /** One counted hit on the key: when, whether it was allowed, and when its window was opened. */
  datatype Hit = Hit(at: int, ok: bool, start: int)

  function Count(hits: seq<Hit>, f: Hit -> bool): nat {
    if hits == [] then 0
    else Count(hits[..|hits| - 1], f) + (if f(hits[|hits| - 1]) then 1 else 0)
  }

  function InWindow(start: int): Hit -> bool {
    (h: Hit) => h.start == start
  }

  function AllowedIn(start: int): Hit -> bool {
    (h: Hit) => h.start == start && h.ok
  }

  function AllowedDuring(from: int, to: int): Hit -> bool {
    (h: Hit) => h.ok && from <= h.at <= to
  }

  /** Fixed-window counting, stated without a table: a hit joins the previous hit's window when it
      falls in its closed span of length `window`, else opens its own; it is allowed when it is among
      the first `limit` of its window. */
  ghost predicate FixedWindows(hits: seq<Hit>, limit: int, window: int) {
    hits == [] ||
    var before, h := hits[..|hits| - 1], hits[|hits| - 1];
    && FixedWindows(before, limit, window)
    && (before != [] ==> before[|before| - 1].at <= h.at)
    && h.start == (if before != [] && h.at <= before[|before| - 1].start + window
                    then before[|before| - 1].start else h.at)
    && (h.ok <==> Count(before, InWindow(h.start)) + 1 <= limit)
  }

  // ----- the limiter produces fixed windows -----

  predicate UniformFor(calls: seq<Call>, key: string, limit: int, window: int) {
    forall i :: 0 <= i < |calls| && calls[i].key == key ==> calls[i].limit == limit && calls[i].window == window
  }

  /** The hits on a key in a run of the real limiter, with the answers it gave. */
  function HitsOn(calls: seq<Call>, key: string, window: int): seq<Hit> {
    if calls == [] then []
    else
      var before, c := calls[..|calls| - 1], calls[|calls| - 1];
      HitsOn(before, key, window) +
        (if c.key == key then [Hit(c.now, LastAnswer(calls), Current(PlainTable(before), c).reset - window)] else [])
  }

  /** The key's entry is the window of its latest hit. */
  ghost predicate EntryMatches(t: Table, key: string, hits: seq<Hit>, window: int) {
    if hits == [] then key !in t
    else
      var o := hits[|hits| - 1].start;
      key in t && t[key] == Entry(Count(hits, InWindow(o)), o + window)
  }

  lemma {:induction false} WindowsBehind(hits: seq<Hit>, limit: int, window: int)
    requires window > 0 && FixedWindows(hits, limit, window) && hits != []
    ensures forall i :: 0 <= i < |hits| ==> hits[i].at <= hits[|hits| - 1].at
    ensures forall i :: 0 <= i < |hits| ==> hits[i].start <= hits[i].at <= hits[i].start + window
    ensures forall i, j :: 0 <= i <= j < |hits| ==>
      hits[i].start == hits[j].start || hits[i].start + window < hits[j].start
  {
    var before := hits[..|hits| - 1];
    if before != [] {
      WindowsBehind(before, limit, window);
      assert forall i :: 0 <= i < |before| ==> hits[i] == before[i];
    }
  }

  lemma {:induction false} NoneInFreshWindow(hits: seq<Hit>, start: int)
    requires forall i :: 0 <= i < |hits| ==> hits[i].start != start
    ensures Count(hits, InWindow(start)) == 0
  {
    if hits != [] {
      NoneInFreshWindow(hits[..|hits| - 1], start);
    }
  }

  lemma NextHit(t: Table, hits: seq<Hit>, c: Call, ok: bool, limit: int)
    requires c.window > 0 && c.limit == limit > 0
    requires FixedWindows(hits, limit, c.window) && EntryMatches(t, c.key, hits, c.window)
    requires hits != [] ==> hits[|hits| - 1].at <= c.now
    requires ok == Within(t, c)
    ensures var h := Hit(c.now, ok, Current(t, c).reset - c.window);
      FixedWindows(hits + [h], limit, c.window) && EntryMatches(Bump(t, c), c.key, hits + [h], c.window)
  {
    var h := Hit(c.now, ok, Current(t, c).reset - c.window);
    var all := hits + [h];
    assert all[..|all| - 1] == hits;
    if hits != [] && c.now > hits[|hits| - 1].start + c.window {
      WindowsBehind(hits, limit, c.window);
      NoneInFreshWindow(hits, c.now);
    }
  }

  lemma HitsAreEarlier(calls: seq<Call>, key: string, window: int, now: int)
    requires forall i :: 0 <= i < |calls| ==> calls[i].now <= now
    ensures forall i :: 0 <= i < |HitsOn(calls, key, window)| ==> HitsOn(calls, key, window)[i].at <= now
  {
    if calls != [] {
      HitsAreEarlier(calls[..|calls| - 1], key, window, now);
    }
  }

  lemma {:induction false} LimiterCountsFixedWindows(calls: seq<Call>, key: string, limit: int, window: int)
    requires limit > 0 && window > 0 && Monotone(calls) && UniformFor(calls, key, limit, window)
    ensures FixedWindows(HitsOn(calls, key, window), limit, window)
    ensures EntryMatches(PlainTable(calls), key, HitsOn(calls, key, window), window)
  {
    if calls != [] {
      var before, c := calls[..|calls| - 1], calls[|calls| - 1];
      LimiterCountsFixedWindows(before, key, limit, window);
      if c.key == key {
        SweepIsInvisibleAt(calls, c.now);
        HitsAreEarlier(before, key, window, c.now);
        NextHit(PlainTable(before), HitsOn(before, key, window), c, LastAnswer(calls), limit);
      } else {
        assert HitsOn(calls, key, window) == HitsOn(before, key, window);
      }
    }
  }

  // ----- counting -----

  lemma {:induction false} CountSplit(hits: seq<Hit>, f: Hit -> bool, g: Hit -> bool, h: Hit -> bool)
    requires forall i :: 0 <= i < |hits| && f(hits[i]) ==> g(hits[i]) || h(hits[i])
    ensures Count(hits, f) <= Count(hits, g) + Count(hits, h)
  {
    if hits != [] {
      CountSplit(hits[..|hits| - 1], f, g, h);
    }
  }

  lemma {:induction false} CountStrict(hits: seq<Hit>, f: Hit -> bool, g: Hit -> bool, k: nat)
    requires forall i :: 0 <= i < |hits| && f(hits[i]) ==> g(hits[i])
    requires k < |hits| && g(hits[k]) && !f(hits[k])
    ensures Count(hits, f) + 1 <= Count(hits, g)
  {
    var before := hits[..|hits| - 1];
    if k < |before| {
      CountStrict(before, f, g, k);
    } else {
      CountSplit(before, f, g, g);
      CountImplies(before, f, g);
    }
  }

  lemma {:induction false} CountImplies(hits: seq<Hit>, f: Hit -> bool, g: Hit -> bool)
    requires forall i :: 0 <= i < |hits| && f(hits[i]) ==> g(hits[i])
    ensures Count(hits, f) <= Count(hits, g)
  {
    if hits != [] {
      CountImplies(hits[..|hits| - 1], f, g);
    }
  }

  lemma {:induction false} CountNone(hits: seq<Hit>, f: Hit -> bool)
    requires forall i :: 0 <= i < |hits| ==> !f(hits[i])
    ensures Count(hits, f) == 0
  {
    if hits != [] {
      CountNone(hits[..|hits| - 1], f);
    }
  }

  function Min(a: int, b: int): int {
    if a <= b then a else b
  }

  lemma {:induction false} AllowedPerWindow(hits: seq<Hit>, limit: int, window: int, start: int)
    requires limit > 0 && FixedWindows(hits, limit, window)
    ensures Count(hits, AllowedIn(start)) == Min(Count(hits, InWindow(start)), limit)
  {
    if hits != [] {
      AllowedPerWindow(hits[..|hits| - 1], limit, window, start);
    }
  }

  /** Every window was opened by an allowed hit at its very first instant. */
  lemma {:induction false} WindowOpener(hits: seq<Hit>, limit: int, window: int, k: nat) returns (i: nat)
    requires limit > 0 && window > 0 && FixedWindows(hits, limit, window) && k < |hits|
    ensures i <= k && hits[i].ok && hits[i].at == hits[i].start == hits[k].start
  {
    var before, h := hits[..|hits| - 1], hits[|hits| - 1];
    if k < |before| {
      i := WindowOpener(before, limit, window, k);
    } else if before != [] && h.at <= before[|before| - 1].start + window {
      i := WindowOpener(before, limit, window, |before| - 1);
    } else {
      i := k;
      if before != [] {
        WindowsBehind(before, limit, window);
      }
      NoneInFreshWindow(before, h.start);
    }
  }

  lemma SpanBound(hits: seq<Hit>, limit: int, window: int, from: int)
    requires limit > 0 && window > 0 && FixedWindows(hits, limit, window)
    ensures Count(hits, AllowedDuring(from, from + window)) <= 2 * limit - 1
  {
    var inSpan := AllowedDuring(from, from + window);
    if i :| 0 <= i < |hits| && inSpan(hits[i]) && forall j :: 0 <= j < i ==> !inSpan(hits[j]) {
      WindowsBehind(hits, limit, window);
      var o := hits[i].start;
      AllowedPerWindow(hits, limit, window, o);
      if o >= from {
        CountImplies(hits, inSpan, AllowedIn(o));
      } else {
        var k := WindowOpener(hits, limit, window, i);
        var late := (h: Hit) => h.start == o && h.ok && h.at >= from;
        CountStrict(hits, late, AllowedIn(o), k);
        if j :| 0 <= j < |hits| && inSpan(hits[j]) && hits[j].start != o {
          TwoWindows(hits, limit, window, from, i, j);
          AllowedPerWindow(hits, limit, window, hits[j].start);
          CountSplit(hits, inSpan, late, AllowedIn(hits[j].start));
        } else {
          CountImplies(hits, inSpan, late);
        }
      }
    } else {
      NoFirst(hits, inSpan);
      CountNone(hits, inSpan);
    }
  }

  /** A span no longer than a window meets at most two windows. */
  lemma TwoWindows(hits: seq<Hit>, limit: int, window: int, from: int, i: nat, j: nat)
    requires window > 0 && FixedWindows(hits, limit, window)
    requires i < |hits| && j < |hits| && hits[i].start != hits[j].start
    requires from <= hits[i].at <= from + window && from <= hits[j].at <= from + window
    ensures forall k :: 0 <= k < |hits| && from <= hits[k].at <= from + window ==>
      hits[k].start == hits[i].start || hits[k].start == hits[j].start
  {
    WindowsBehind(hits, limit, window);
  }

  lemma NoFirst(hits: seq<Hit>, f: Hit -> bool)
    requires !exists i :: 0 <= i < |hits| && f(hits[i]) && forall j :: 0 <= j < i ==> !f(hits[j])
    ensures forall i :: 0 <= i < |hits| ==> !f(hits[i])
  {
    var n := 0;
    while n < |hits|
      invariant 0 <= n <= |hits|
      invariant forall i :: 0 <= i < n ==> !f(hits[i])
    {
      n := n + 1;
    }
  }

  // ----- main results -----

  /** In each fixed window the limiter allows exactly the first `limit` hits, or all when there are fewer. */
  lemma EachWindowAllowsExactly(calls: seq<Call>, key: string, limit: int, window: int, start: int)
    requires limit > 0 && window > 0 && Monotone(calls) && UniformFor(calls, key, limit, window)
    ensures var hits := HitsOn(calls, key, window);
      Count(hits, AllowedIn(start)) == Min(Count(hits, InWindow(start)), limit)
  {
    LimiterCountsFixedWindows(calls, key, limit, window);
    AllowedPerWindow(HitsOn(calls, key, window), limit, window, start);
  }

  /** Over any closed span as long as the window, straddling windows or not, fewer than twice the
      limit hits on one key are allowed. */
  lemma AnySpanAllowsFewerThanTwice(calls: seq<Call>, key: string, limit: int, window: int, from: int)
    requires limit > 0 && window > 0 && Monotone(calls) && UniformFor(calls, key, limit, window)
    ensures Count(HitsOn(calls, key, window), AllowedDuring(from, from + window)) <= 2 * limit - 1
  {
    LimiterCountsFixedWindows(calls, key, limit, window);
    SpanBound(HitsOn(calls, key, window), limit, window, from);
  }

  // ----- the bound is reached -----

  function Repeat(c: Call, n: nat): seq<Call> {
    if n == 0 then [] else Repeat(c, n - 1) + [c]
  }

  /** One hit opens a window, all but one of its share arrive at its very last instant, and a full share
      of the next window right after. */
  function Burst(key: string, limit: nat, window: int, from: int): seq<Call>
    requires limit > 0
  {
    [Call(from, key, limit, window)] + Repeat(Call(from + window, key, limit, window), limit - 1)
    + Repeat(Call(from + window + 1, key, limit, window), limit)
  }

  lemma {:induction false} RepeatShape(c: Call, n: nat)
    ensures |Repeat(c, n)| == n && forall i :: 0 <= i < n ==> Repeat(c, n)[i] == c
  {
    if n > 0 {
      RepeatShape(c, n - 1);
    }
  }

  lemma BurstShape(key: string, limit: nat, window: int, from: int)
    requires limit > 0 && window > 0
    ensures Monotone(Burst(key, limit, window, from)) && UniformFor(Burst(key, limit, window, from), key, limit, window)
  {
    RepeatShape(Call(from + window, key, limit, window), limit - 1);
    RepeatShape(Call(from + window + 1, key, limit, window), limit);
  }

  /** One more hit that its window still admits: allowed, and counted in that window. */
  lemma OneMoreHit(before: seq<Call>, c: Call, start: int, have: nat)
    requires c.window > 0 && have + 1 <= c.limit && c.now <= start + c.window
    requires Monotone(before + [c]) && UniformFor(before + [c], c.key, c.limit, c.window)
    requires Current(PlainTable(before), c) == Entry(have, start + c.window)
    ensures HitsOn(before + [c], c.key, c.window) == HitsOn(before, c.key, c.window) + [Hit(c.now, true, start)]
    ensures c.key in PlainTable(before + [c]) && PlainTable(before + [c])[c.key] == Entry(have + 1, start + c.window)
  {
    hide HitsOn, PlainTable;
    AllowedNext(before, c, have);
    NextEntry(before, c);
    NextRecord(before, c);
  }

  lemma NextEntry(before: seq<Call>, c: Call)
    ensures PlainTable(before + [c]) == if c.limit <= 0 then PlainTable(before) else Bump(PlainTable(before), c)
  {
    var all := before + [c];
    hide Bump;
    assert all[..|all| - 1] == before && all[|all| - 1] == c;
  }

  lemma NextRecord(before: seq<Call>, c: Call)
    ensures HitsOn(before + [c], c.key, c.window) ==
      HitsOn(before, c.key, c.window) + [Hit(c.now, LastAnswer(before + [c]), Current(PlainTable(before), c).reset - c.window)]
  {
    var all := before + [c];
    hide PlainTable, LastAnswer, Current;
    assert all[..|all| - 1] == before && all[|all| - 1] == c;
  }

  lemma AllowedNext(before: seq<Call>, c: Call, have: nat)
    requires have + 1 <= c.limit && Monotone(before + [c]) && Current(PlainTable(before), c).count == have
    ensures LastAnswer(before + [c])
  {
    var all := before + [c];
    assert all[..|all| - 1] == before && all[|all| - 1] == c;
    hide LastAnswer, LazyState;
    SweepIsInvisibleAt(all, c.now);
  }

  /** `n` hits at one instant of a window that already has `have` and admits them all. */
  lemma {:induction false} RepeatedHits(before: seq<Call>, c: Call, n: nat, start: int, have: nat)
    requires c.window > 0 && have + n <= c.limit && c.now <= start + c.window
    requires Monotone(before + Repeat(c, n)) && UniformFor(before + Repeat(c, n), c.key, c.limit, c.window)
    requires Current(PlainTable(before), c) == Entry(have, start + c.window)
    ensures HitsOn(before + Repeat(c, n), c.key, c.window) == HitsOn(before, c.key, c.window) + Same(Hit(c.now, true, start), n)
    ensures n > 0 ==> c.key in PlainTable(before + Repeat(c, n))
    ensures n > 0 ==> PlainTable(before + Repeat(c, n))[c.key] == Entry(have + n, start + c.window)
  {
    hide HitsOn, PlainTable;
    if n == 0 {
      assert before + Repeat(c, n) == before;
    } else {
      var shorter := before + Repeat(c, n - 1);
      assert before + Repeat(c, n) == shorter + [c];
      ShorterRun(shorter, c);
      RepeatedHits(before, c, n - 1, start, have);
      if n == 1 {
        assert shorter == before;
      }
      RepeatShape(c, n - 1);
      assert Current(PlainTable(shorter), c) == Entry(have + n - 1, start + c.window);
      OneMoreHit(shorter, c, start, have + n - 1);
    }
  }

  lemma ShorterRun(calls: seq<Call>, c: Call)
    requires Monotone(calls + [c]) && UniformFor(calls + [c], c.key, c.limit, c.window)
    ensures Monotone(calls) && UniformFor(calls, c.key, c.limit, c.window)
    ensures forall i :: 0 <= i < |calls| ==> calls[i].now <= c.now
  {
    var all := calls + [c];
    assert all[|calls|] == c && forall i :: 0 <= i < |calls| ==> all[i] == calls[i];
  }

  function Same(h: Hit, n: nat): seq<Hit> {
    if n == 0 then [] else Same(h, n - 1) + [h]
  }

  lemma {:induction false} CountSame(hits: seq<Hit>, h: Hit, n: nat, f: Hit -> bool)
    ensures Count(hits + Same(h, n), f) == Count(hits, f) + (if f(h) then n else 0)
  {
    if n == 0 {
      assert hits + Same(h, n) == hits;
    } else {
      CountSame(hits, h, n - 1, f);
      var all := hits + Same(h, n);
      assert all == (hits + Same(h, n - 1)) + [h] && all[..|all| - 1] == hits + Same(h, n - 1);
    }
  }

  /** The hits of the burst, as the limiter answers them. */
  lemma BurstHits(key: string, limit: nat, window: int, from: int)
    requires limit > 0 && window > 0
    ensures HitsOn(Burst(key, limit, window, from), key, window) ==
      Same(Hit(from, true, from), 1) + Same(Hit(from + window, true, from), limit - 1)
      + Same(Hit(from + window + 1, true, from + window + 1), limit)
  {
    BurstShape(key, limit, window, from);
    var first, last, next := Call(from, key, limit, window), Call(from + window, key, limit, window), Call(from + window + 1, key, limit, window);
    RepeatShape(last, limit - 1);
    RepeatShape(next, limit);
    FirstWindow(first, last, limit - 1);
    var two := [first] + Repeat(last, limit - 1);
    ShorterBurst(two, Repeat(next, limit), key, limit, window);
    hide HitsOn, PlainTable, Monotone, UniformFor;
    assert Current(PlainTable(two), next) == Entry(0, from + window + 1 + window);
    RepeatedHits(two, next, limit, from + window + 1, 0);
  }

  lemma ShorterBurst(calls: seq<Call>, more: seq<Call>, key: string, limit: nat, window: int)
    requires Monotone(calls + more) && UniformFor(calls + more, key, limit, window)
    ensures Monotone(calls) && UniformFor(calls, key, limit, window)
  {
    assert forall i :: 0 <= i < |calls| ==> (calls + more)[i] == calls[i];
  }

  /** The first window of the burst: its opening hit and the rest of its share. */
  lemma FirstWindow(first: Call, last: Call, n: nat)
    requires first.window > 0 && n + 1 == first.limit && last == first.(now := first.now + first.window)
    ensures var calls := [first] + Repeat(last, n);
      && HitsOn(calls, first.key, first.window) == Same(Hit(first.now, true, first.now), 1) + Same(Hit(last.now, true, first.now), n)
      && first.key in PlainTable(calls) && PlainTable(calls)[first.key] == Entry(n + 1, first.now + first.window)
  {
    var calls := [first] + Repeat(last, n);
    OpeningHit(first);
    RepeatShape(last, n);
    hide HitsOn, PlainTable, Repeat, Same;
    assert Monotone(calls) && UniformFor(calls, first.key, first.limit, first.window);
    assert Current(PlainTable([first]), last) == Entry(1, first.now + first.window);
    RepeatedHits([first], last, n, first.now, 1);
    if n == 0 {
      assert calls == [first];
    }
  }

  lemma OpeningHit(first: Call)
    requires first.window > 0 && first.limit > 0
    ensures HitsOn([first], first.key, first.window) == Same(Hit(first.now, true, first.now), 1)
    ensures first.key in PlainTable([first]) && PlainTable([first])[first.key] == Entry(1, first.now + first.window)
  {
    assert PlainTable([]) == map[] && HitsOn([], first.key, first.window) == [];
    assert Same(Hit(first.now, true, first.now), 1) == Same(Hit(first.now, true, first.now), 0) + [Hit(first.now, true, first.now)];
    hide HitsOn, PlainTable;
    assert [] + [first] == [first];
    OneMoreHit([], first, first.now, 0);
  }

  /** The bound cannot be improved: for every limit and window there is a sequence of calls of which the
      limiter allows exactly 2·limit − 1 within one closed window's length. */
  lemma SpanBoundIsReached(key: string, limit: nat, window: int, from: int)
    requires limit > 0 && window > 0
    ensures var calls := Burst(key, limit, window, from);
      && Monotone(calls) && UniformFor(calls, key, limit, window)
      && Count(HitsOn(calls, key, window), AllowedDuring(from + 1, from + 1 + window)) == 2 * limit - 1
  {
    BurstShape(key, limit, window, from);
    BurstHits(key, limit, window, from);
    var f := AllowedDuring(from + 1, from + 1 + window);
    var h1, h2, h3 := Hit(from, true, from), Hit(from + window, true, from), Hit(from + window + 1, true, from + window + 1);
    CountSame([], h1, 1, f);
    assert [] + Same(h1, 1) == Same(h1, 1);
    CountSame(Same(h1, 1), h2, limit - 1, f);
    CountSame(Same(h1, 1) + Same(h2, limit - 1), h3, limit, f);
  }
}
