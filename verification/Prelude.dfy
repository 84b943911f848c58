/** Shared vocabulary: optional values, byte strings, ASCII text helpers and one-way digests. */
module Prelude {

  datatype Option<+T> = None | Some(value: T)

  type Byte = b: int | 0 <= b < 256

  /** A stored SHA-256 hash. The constructor is injective: no two distinct secrets share a digest. */
  datatype Digest = Sha256(preimage: string)

  function LowerChar(c: char): char {
    if 'A' <= c <= 'Z' then ((c as int) + 32) as char else c
  }

  /** ASCII case folding, as `strings.ToLower` and SQL `lower` do on plain addresses and role names. */
  function Lower(s: string): (r: string)
    ensures |r| == |s|
    ensures forall i :: 0 <= i < |s| ==> r[i] == LowerChar(s[i])
  {
    if s == [] then [] else [LowerChar(s[0])] + Lower(s[1..])
  }

  lemma LowerIdempotent(s: string)
    ensures Lower(Lower(s)) == Lower(s)
  {
    assert forall c :: LowerChar(LowerChar(c)) == LowerChar(c);
  }

  predicate IsBlank(c: char) {
    c == ' ' || ('\t' <= c <= '\r')
  }

  /** `strings.TrimSpace` on ASCII text. */
  function Trim(s: string): (r: string)
    decreases |s|
    ensures |r| <= |s|
    ensures r != [] ==> !IsBlank(r[0]) && !IsBlank(r[|r| - 1])
    ensures (s == [] || (!IsBlank(s[0]) && !IsBlank(s[|s| - 1]))) ==> r == s
  {
    if s == [] then []
    else if IsBlank(s[0]) then Trim(s[1..])
    else if IsBlank(s[|s| - 1]) then Trim(s[..|s| - 1])
    else s
  }

  /** Lower-cased, trimmed text: how roles and addresses are stored. */
  function Normalize(s: string): string {
    Trim(Lower(s))
  }

  predicate Normalized(s: string) {
    Normalize(s) == s
  }

  lemma TrimKeepsFolded(s: string)
    requires Lower(s) == s
    ensures Lower(Trim(s)) == Trim(s)
    decreases |s|
  {
    if s != [] {
      if IsBlank(s[0]) {
        assert forall i :: 0 <= i < |s[1..]| ==> Lower(s)[i + 1] == LowerChar(s[1..][i]);
        assert Lower(s[1..]) == s[1..];
        TrimKeepsFolded(s[1..]);
      } else if IsBlank(s[|s| - 1]) {
        var t := s[..|s| - 1];
        assert forall i :: 0 <= i < |t| ==> Lower(s)[i] == LowerChar(t[i]);
        assert Lower(t) == t;
        TrimKeepsFolded(t);
      }
    }
  }

  /** Normalizing twice changes nothing, so a stored role compares equal to itself after any later cleanup. */
  lemma NormalizeIsStable(s: string)
    ensures Normalized(Normalize(s))
    ensures Lower(Normalize(s)) == Normalize(s)
  {
    LowerIdempotent(s);
    TrimKeepsFolded(Lower(s));
  }

  /** Case folding moves the 26 capitals and nothing else. */
  lemma LowerFoldsCapitals(s: string, i: nat)
    requires i < |s|
    ensures |Lower(s)| == |s|
    ensures Lower(s)[i] as int == (if 65 <= s[i] as int <= 90 then s[i] as int + 32 else s[i] as int)
  {
  }

  lemma BlanksSpelledOut(c: char)
    ensures IsBlank(c) <==> c in " \t\n\U{0B}\U{0C}\r"
  {
  }

  /** What lies outside `s[i..j]` is blank, and its ends are not. */
  ghost predicate Inner(s: string, i: int, j: int) {
    && 0 <= i <= j <= |s|
    && (forall k :: 0 <= k < i || j <= k < |s| ==> IsBlank(s[k]))
    && (i < j ==> !IsBlank(s[i]) && !IsBlank(s[j - 1]))
  }

  lemma {:induction false} TrimIsInner(s: string) returns (i: int, j: int)
    ensures Inner(s, i, j) && Trim(s) == s[i..j]
    decreases |s|
  {
    hide IsBlank, Inner;
    if s == [] {
      i, j := 0, 0;
      NothingToTrim(s);
    } else if IsBlank(s[0]) {
      i, j := TrimIsInner(s[1..]);
      i, j := i + 1, j + 1;
      BlankBefore(s, i, j);
    } else if IsBlank(s[|s| - 1]) {
      i, j := TrimIsInner(s[..|s| - 1]);
      BlankBehind(s, i, j);
    } else {
      i, j := 0, |s|;
      NothingToTrim(s);
    }
  }

  lemma NothingToTrim(s: string)
    requires s == [] || (!IsBlank(s[0]) && !IsBlank(s[|s| - 1]))
    ensures Inner(s, 0, |s|) && s[0..|s|] == s
  {
    hide IsBlank;
  }

  lemma BlankBefore(s: string, i: int, j: int)
    requires s != [] && IsBlank(s[0]) && Inner(s[1..], i - 1, j - 1)
    ensures Inner(s, i, j) && s[1..][i - 1..j - 1] == s[i..j]
  {
    hide IsBlank;
    assert forall k :: 0 < k < |s| ==> s[k] == s[1..][k - 1];
  }

  lemma BlankBehind(s: string, i: int, j: int)
    requires s != [] && IsBlank(s[|s| - 1]) && Inner(s[..|s| - 1], i, j)
    ensures Inner(s, i, j) && s[..|s| - 1][i..j] == s[i..j]
  {
    hide IsBlank;
  }

  /** Trimming takes away the blanks at both ends and keeps everything in between. */
  lemma TrimKeepsTheInner(s: string)
    ensures exists i, j :: 0 <= i <= j <= |s| && TrimmedTo(s, i, j)
  {
    var i, j := TrimIsInner(s);
    forall k | 0 <= k < |s| ensures IsBlank(s[k]) <==> s[k] in " \t\n\U{0B}\U{0C}\r" {
      BlanksSpelledOut(s[k]);
    }
    hide IsBlank, Trim;
    assert TrimmedTo(s, i, j);
  }

  ghost predicate TrimmedTo(s: string, i: int, j: int)
    requires 0 <= i <= j <= |s|
  {
    && Trim(s) == s[i..j]
    && (forall k :: 0 <= k < i || j <= k < |s| ==> s[k] in " \t\n\U{0B}\U{0C}\r")
    && (i < j ==> s[i] !in " \t\n\U{0B}\U{0C}\r" && s[j - 1] !in " \t\n\U{0B}\U{0C}\r")
  }

  /** Puts one more character at the front of the first piece. */
  function Attach(c: char, pieces: seq<string>): (r: seq<string>)
    requires |pieces| >= 1
    ensures |r| == |pieces|
  {
    [[c] + pieces[0]] + pieces[1..]
  }

  /** `strings.Split(s, sep)` for a one-character separator: never empty, pieces in order. */
  function Split(s: string, sep: char): (pieces: seq<string>)
    ensures |pieces| >= 1
  {
    if s == [] then [[]]
    else if s[0] == sep then [[]] + Split(s[1..], sep)
    else
      var rest := Split(s[1..], sep);
      Attach(s[0], rest)
  }

  lemma SplitWithoutSeparator(s: string, sep: char)
    requires sep !in s
    ensures Split(s, sep) == [s]
  {
    if s != [] {
      SplitWithoutSeparator(s[1..], sep);
      assert [s[0]] + s[1..] == s;
    }
  }

  /** Joining two strings with the separator concatenates their pieces. */
  lemma {:induction false} SplitJoined(a: string, b: string, sep: char)
    ensures Split(a + [sep] + b, sep) == Split(a, sep) + Split(b, sep)
  {
    var tail := [sep] + b;
    assert a + [sep] + b == a + tail;
    if a == [] {
      assert a + tail == tail;
      SplitCons(sep, b, sep);
    } else {
      SplitJoined(a[1..], b, sep);
      assert a[1..] + [sep] + b == a[1..] + tail;
      SplitCons(a[0], a[1..] + tail, sep);
      assert a + tail == [a[0]] + (a[1..] + tail);
      AttachToConcat(a[0], Split(a[1..], sep), Split(b, sep));
    }
  }

  lemma AttachToConcat(c: char, xs: seq<string>, ys: seq<string>)
    requires |xs| >= 1
    ensures Attach(c, xs + ys) == Attach(c, xs) + ys
  {
    assert (xs + ys)[1..] == xs[1..] + ys;
  }

  lemma SplitCons(c: char, s: string, sep: char)
    ensures Split([c] + s, sep) == if c == sep then [[]] + Split(s, sep) else Attach(c, Split(s, sep))
  {
    assert ([c] + s)[1..] == s;
  }

  // ----- decimal numbers -----

  predicate IsDigit(c: char) {
    '0' <= c <= '9'
  }

  function DigitChar(d: int): (c: char)
    requires 0 <= d < 10
    ensures IsDigit(c)
  {
    (('0' as int) + d) as char
  }

  function DigitValue(c: char): (d: nat)
    requires IsDigit(c)
    ensures d < 10
  {
    (c as int) - ('0' as int)
  }

  function Decimal(n: nat): (s: string)
    ensures s != [] && forall i :: 0 <= i < |s| ==> IsDigit(s[i])
  {
    if n < 10 then [DigitChar(n)] else Decimal(n / 10) + [DigitChar(n % 10)]
  }
}
