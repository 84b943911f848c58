/** Numbers written in a base: what digit stands where. */
module Digits {

  function Pow(base: nat, n: nat): (p: nat)
    ensures base > 0 ==> p > 0
  {
    if n == 0 then 1 else PosTimes(base, Pow(base, n - 1))
  }

  function PosTimes(a: nat, b: nat): (p: nat)
    ensures p == a * b
    ensures a > 0 && b > 0 ==> p > 0
  {
    a * b
  }

  /** The number a sequence of digits stands for, most significant first. */
  function Num(base: nat, xs: seq<nat>): nat {
    if xs == [] then 0 else Num(base, xs[..|xs| - 1]) * base + xs[|xs| - 1]
  }

  lemma DivTwice(x: nat, a: nat, b: nat)
    requires a > 0 && b > 0
    ensures a * b > 0 && x / (a * b) == x / a / b
  {
    var p := PosTimes(a, b);
    var q := x / a / b;
    var r, s := x % a, x / a % b;
    assert x == (q * b + s) * a + r;
    assert (q * b + s) * a == q * p + s * a by {
      assert (q * b + s) * a == (q * b) * a + s * a;
      assert (q * b) * a == q * (b * a);
    }
    var rest := s * a + r;
    assert rest < p by {
      assert s <= b - 1;
      assert s * a <= (b - 1) * a;
      assert (b - 1) * a == b * a - a;
    }
    assert x == q * p + rest;
    Quotient(x, p, q, rest);
  }

  lemma Quotient(x: nat, p: nat, q: nat, rest: nat)
    requires p > 0 && x == q * p + rest && rest < p
    ensures x / p == q
  {
    var d: int := x / p - q;
    assert x == (x / p) * p + x % p;
    assert (x / p) * p == q * p + d * p;
    SmallMultiple(d, p);
  }

  lemma SmallMultiple(d: int, p: int)
    requires p > 0 && -p < d * p < p
    ensures d == 0
  {
    MoreTimes(1, d, p);
    MoreTimes(d, -1, p);
  }

  lemma MoreTimes(a: int, b: int, p: int)
    requires p > 0
    ensures a <= b ==> a * p <= b * p
  {
  }

  /** Digit `k` is what is left of the number shifted down to it. */
  lemma {:induction false} DigitAt(base: nat, xs: seq<nat>, k: nat)
    requires base > 0 && k < |xs| && forall i :: 0 <= i < |xs| ==> xs[i] < base
    ensures Num(base, xs) / Pow(base, |xs| - 1 - k) % base == xs[k]
  {
    var before, last := xs[..|xs| - 1], xs[|xs| - 1];
    var n := Num(base, before);
    if k == |xs| - 1 {
      assert (n * base + last) % base == last by {
        Quotient(n * base + last, base, n, last);
      }
    } else {
      DigitAt(base, before, k);
      var m := |xs| - 2 - k;
      assert Pow(base, m + 1) == base * Pow(base, m);
      DivTwice(n * base + last, base, Pow(base, m));
      Quotient(n * base + last, base, n, last);
    }
  }

  lemma Regroup(a: int, b: int, c: int)
    ensures (a * b) * c == a * (b * c)
  {
  }

  lemma {:induction false} PowAdds(base: nat, m: nat, n: nat)
    ensures Pow(base, m + n) == Pow(base, m) * Pow(base, n)
  {
    if m > 0 {
      PowAdds(base, m - 1, n);
      Regroup(base, Pow(base, m - 1), Pow(base, n));
      assert Pow(base, m + n) == base * Pow(base, m - 1 + n);
      assert Pow(base, m) == base * Pow(base, m - 1);
    } else {
      assert Pow(base, 0) == 1;
    }
    hide Pow;
  }

  /** The digits of two runs side by side. */
  lemma {:induction false} NumConcat(base: nat, xs: seq<nat>, ys: seq<nat>)
    ensures Num(base, xs + ys) == Num(base, xs) * Pow(base, |ys|) + Num(base, ys)
  {
    if ys == [] {
      assert xs + ys == xs;
    } else {
      var before, last := ys[..|ys| - 1], ys[|ys| - 1];
      NumConcat(base, xs, before);
      assert (xs + ys)[..|xs + ys| - 1] == xs + before;
      Shift(base, Num(base, xs), Pow(base, |before|), Num(base, before), last);
      assert Pow(base, |ys|) == base * Pow(base, |before|);
    }
  }

  lemma Shift(base: nat, a: nat, p: nat, b: nat, last: nat)
    ensures (a * p + b) * base + last == a * (base * p) + (b * base + last)
  {
    Regroup(a, p, base);
    assert (a * p + b) * base == (a * p) * base + b * base;
  }
}
