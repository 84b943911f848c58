/** Base64 of RFC 4648: the standard alphabet of section 4 and the URL-safe one of section 5, both
    without padding (section 3.2), plus the padded URL-safe form used for opaque tokens. */
module Base64 {
  import opened Prelude
  import opened Digits

  datatype Alphabet = Standard | UrlSafe

  type Sextet = x: int | 0 <= x < 64

  function Symbol(a: Alphabet, x: Sextet): char {
    if x < 26 then (('A' as int) + x) as char
    else if x < 52 then (('a' as int) + x - 26) as char
    else if x < 62 then (('0' as int) + x - 52) as char
    else if x == 62 then (if a == Standard then '+' else '-')
    else (if a == Standard then '/' else '_')
  }

  function Value(a: Alphabet, c: char): Option<Sextet> {
    if 'A' <= c <= 'Z' then Some((c as int) - ('A' as int))
    else if 'a' <= c <= 'z' then Some((c as int) - ('a' as int) + 26)
    else if '0' <= c <= '9' then Some((c as int) - ('0' as int) + 52)
    else if c == (if a == Standard then '+' else '-') then Some(62)
    else if c == (if a == Standard then '/' else '_') then Some(63)
    else None
  }

  lemma SymbolHasValue(a: Alphabet, x: Sextet)
    ensures Value(a, Symbol(a, x)) == Some(x)
  {
  }

  predicate InAlphabet(a: Alphabet, s: string) {
    forall i :: 0 <= i < |s| ==> Value(a, s[i]).Some?
  }

  function Group0(x: Byte): Sextet {
    x / 4
  }

  function Group1(x: Byte, y: Byte): Sextet {
    x % 4 * 16 + y / 16
  }

  function Group2(y: Byte, z: Byte): Sextet {
    y % 16 * 4 + z / 64
  }

  function Group3(z: Byte): Sextet {
    z % 64
  }

  /** Three bytes become four 6-bit groups; one or two left-over bytes become two or three. */
  function Groups(bs: seq<Byte>): seq<Sextet> {
    if |bs| == 0 then []
    else if |bs| == 1 then [Group0(bs[0]), Group1(bs[0], 0)]
    else if |bs| == 2 then [Group0(bs[0]), Group1(bs[0], bs[1]), Group2(bs[1], 0)]
    else [Group0(bs[0]), Group1(bs[0], bs[1]), Group2(bs[1], bs[2]), Group3(bs[2])] + Groups(bs[3..])
  }

  function FirstByte(p: int, q: int): Byte
    requires 0 <= p < 64 && 0 <= q < 64
  {
    p * 4 + q / 16
  }

  function SecondByte(q: int, r: int): Byte
    requires 0 <= q < 64 && 0 <= r < 64
  {
    q % 16 * 16 + r / 4
  }

  function ThirdByte(r: int, t: int): Byte
    requires 0 <= r < 64 && 0 <= t < 64
  {
    r % 4 * 64 + t
  }

  /** The inverse grouping. A lone trailing group is an error; left-over low bits are ignored. */
  function Ungroup(xs: seq<Sextet>): Option<seq<Byte>> {
    if |xs| == 0 then Some([])
    else if |xs| == 1 then None
    else if |xs| == 2 then Some([FirstByte(xs[0], xs[1])])
    else if |xs| == 3 then Some([FirstByte(xs[0], xs[1]), SecondByte(xs[1], xs[2])])
    else
      match Ungroup(xs[4..])
      case None => None
      case Some(rest) =>
        Some([FirstByte(xs[0], xs[1]), SecondByte(xs[1], xs[2]), ThirdByte(xs[2], xs[3])] + rest)
  }

  function Letters(a: Alphabet, xs: seq<Sextet>): (s: string)
    ensures |s| == |xs|
    ensures forall i :: 0 <= i < |xs| ==> s[i] == Symbol(a, xs[i])
  {
    if xs == [] then "" else [Symbol(a, xs[0])] + Letters(a, xs[1..])
  }

  function Values(a: Alphabet, s: string): Option<seq<Sextet>> {
    if s == [] then Some([])
    else
      match (Value(a, s[0]), Values(a, s[1..]))
      case (Some(x), Some(rest)) => Some([x] + rest)
      case _ => None
  }

  function EncodeRaw(a: Alphabet, bs: seq<Byte>): string {
    Letters(a, Groups(bs))
  }

  /** Four characters per three bytes, then `=` up to a multiple of four. */
  function EncodePadded(a: Alphabet, bs: seq<Byte>): string {
    EncodeRaw(a, bs) + (if |bs| % 3 == 0 then "" else if |bs| % 3 == 1 then "==" else "=")
  }

  /** Go's decoder skips carriage returns and newlines wherever they appear. */
  function StripNewlines(s: string): string {
    if s == [] then []
    else if s[0] == '\r' || s[0] == '\n' then StripNewlines(s[1..])
    else [s[0]] + StripNewlines(s[1..])
  }

  /** `DecodeString` of the unpadded encodings. */
  function DecodeRaw(a: Alphabet, s: string): Option<seq<Byte>> {
    match Values(a, StripNewlines(s))
    case None => None
    case Some(xs) => Ungroup(xs)
  }

  lemma BytesRecovered(x: Byte, y: Byte, z: Byte)
    ensures FirstByte(Group0(x), Group1(x, y)) == x
    ensures SecondByte(Group1(x, y), Group2(y, z)) == y
    ensures ThirdByte(Group2(y, z), Group3(z)) == z
  {
  }

  lemma UngroupCons(p: Sextet, q: Sextet, r: Sextet, t: Sextet, xs: seq<Sextet>, rest: seq<Byte>)
    requires Ungroup(xs) == Some(rest)
    ensures Ungroup([p, q, r, t] + xs) == Some([FirstByte(p, q), SecondByte(q, r), ThirdByte(r, t)] + rest)
  {
    hide FirstByte, SecondByte, ThirdByte;
    var ys := [p, q, r, t] + xs;
    assert ys[4..] == xs;
    assert ys[0] == p && ys[1] == q && ys[2] == r && ys[3] == t;
  }

  lemma GroupsCons(x: Byte, y: Byte, z: Byte, rest: seq<Byte>)
    ensures Groups([x, y, z] + rest) == [Group0(x), Group1(x, y), Group2(y, z), Group3(z)] + Groups(rest)
  {
    hide Group0, Group1, Group2, Group3;
    assert ([x, y, z] + rest)[3..] == rest;
  }

  lemma UngroupTriple(x: Byte, y: Byte, z: Byte, rest: seq<Byte>)
    requires Ungroup(Groups(rest)) == Some(rest)
    ensures Ungroup(Groups([x, y, z] + rest)) == Some([x, y, z] + rest)
  {
    GroupsCons(x, y, z, rest);
    BytesRecovered(x, y, z);
    UngroupCons(Group0(x), Group1(x, y), Group2(y, z), Group3(z), Groups(rest), rest);
    hide Group0, Group1, Group2, Group3, FirstByte, SecondByte, ThirdByte, Groups, Ungroup;
  }

  lemma UngroupOne(x: Byte)
    ensures Ungroup(Groups([x])) == Some([x])
  {
    assert Groups([x]) == [Group0(x), Group1(x, 0)];
    hide Group0, Group1, FirstByte, SecondByte;
    assert Ungroup([Group0(x), Group1(x, 0)]) == Some([FirstByte(Group0(x), Group1(x, 0))]);
    BytesRecovered(x, 0, 0);
  }

  lemma UngroupTwo(x: Byte, y: Byte)
    ensures Ungroup(Groups([x, y])) == Some([x, y])
  {
    var xs := [Group0(x), Group1(x, y), Group2(y, 0)];
    assert Groups([x, y]) == xs;
    hide Group0, Group1, Group2, FirstByte, SecondByte;
    assert Ungroup(xs) == Some([FirstByte(xs[0], xs[1]), SecondByte(xs[1], xs[2])]);
    BytesRecovered(x, y, 0);
  }

  lemma {:induction false} UngroupGroups(bs: seq<Byte>)
    ensures Ungroup(Groups(bs)) == Some(bs)
  {
    if bs == [] {
    } else if |bs| == 1 {
      assert bs == [bs[0]];
      UngroupOne(bs[0]);
    } else if |bs| == 2 {
      assert bs == [bs[0], bs[1]];
      UngroupTwo(bs[0], bs[1]);
    } else {
      UngroupGroups(bs[3..]);
      assert bs == [bs[0], bs[1], bs[2]] + bs[3..];
      UngroupTriple(bs[0], bs[1], bs[2], bs[3..]);
    }
  }

  lemma ValuesCons(a: Alphabet, x: Sextet, s: string, xs: seq<Sextet>)
    requires Values(a, s) == Some(xs)
    ensures Values(a, [Symbol(a, x)] + s) == Some([x] + xs)
  {
    SymbolHasValue(a, x);
    hide Symbol, Value;
    assert ([Symbol(a, x)] + s)[1..] == s;
  }

  lemma {:induction false} ValuesOfLetters(a: Alphabet, xs: seq<Sextet>)
    ensures Values(a, Letters(a, xs)) == Some(xs)
  {
    if xs != [] {
      ValuesOfLetters(a, xs[1..]);
      ValuesCons(a, xs[0], Letters(a, xs[1..]), xs[1..]);
      hide Symbol, Value, Values;
      assert xs == [xs[0]] + xs[1..];
    }
  }

  lemma {:induction false} GroupsLength(bs: seq<Byte>)
    ensures |Groups(bs)| == |bs| / 3 * 4 + (if |bs| % 3 == 0 then 0 else |bs| % 3 + 1)
  {
    hide Group0, Group1, Group2, Group3;
    if |bs| >= 3 {
      GroupsLength(bs[3..]);
      assert |bs| / 3 == |bs[3..]| / 3 + 1;
    }
  }

  lemma EncodedShape(a: Alphabet, bs: seq<Byte>)
    ensures InAlphabet(a, EncodeRaw(a, bs))
    ensures |EncodeRaw(a, bs)| == |bs| / 3 * 4 + (if |bs| % 3 == 0 then 0 else |bs| % 3 + 1)
  {
    GroupsLength(bs);
    forall i | 0 <= i < |EncodeRaw(a, bs)| ensures Value(a, EncodeRaw(a, bs)[i]).Some? {
      SymbolHasValue(a, Groups(bs)[i]);
    }
  }

  lemma {:induction false} NoNewlinesToStrip(a: Alphabet, s: string)
    requires InAlphabet(a, s)
    ensures StripNewlines(s) == s
  {
    if s != [] {
      assert Value(a, s[0]).Some?;
      assert forall i :: 0 <= i < |s[1..]| ==> s[1..][i] == s[i + 1];
      NoNewlinesToStrip(a, s[1..]);
    }
  }

  /** Every byte string survives encoding and decoding, in either alphabet. */
  lemma RoundTrip(a: Alphabet, bs: seq<Byte>)
    ensures DecodeRaw(a, EncodeRaw(a, bs)) == Some(bs)
  {
    EncodedShape(a, bs);
    NoNewlinesToStrip(a, EncodeRaw(a, bs));
    ValuesOfLetters(a, Groups(bs));
    UngroupGroups(bs);
  }

  // ----- which letter stands where -----

  const UPPER_CASE := "ABCDEFGHIJKLMNOPQRSTUVWXYZ"
  const LOWER_CASE := "abcdefghijklmnopqrstuvwxyz"
  const STANDARD_LETTERS := UPPER_CASE + LOWER_CASE + "0123456789" + "+/"
  const URL_SAFE_LETTERS := UPPER_CASE + LOWER_CASE + "0123456789" + "-_"

  lemma UpperCase(x: int)
    requires 0 <= x < 26
    ensures |UPPER_CASE| == 26 && UPPER_CASE[x] == (('A' as int) + x) as char
  {
    var letters := "ABCDEFGHIJKLMNOPQRSTUVWXYZ";
    assert letters[x] as int == 65 + x;
  }

  lemma LowerCase(x: int)
    requires 0 <= x < 26
    ensures |LOWER_CASE| == 26 && LOWER_CASE[x] == (('a' as int) + x) as char
  {
    var letters := "abcdefghijklmnopqrstuvwxyz";
    assert letters[x] as int == 97 + x;
  }

  lemma SymbolIsLetter(a: Alphabet, x: Sextet)
    ensures var letters := if a == Standard then STANDARD_LETTERS else URL_SAFE_LETTERS;
      |letters| == 64 && Symbol(a, x) == letters[x]
  {
    UpperCase(if x < 26 then x else 0);
    LowerCase(if 26 <= x < 52 then x - 26 else 0);
    assert x >= 52 && x < 62 ==> "0123456789"[x - 52] as int == 48 + x - 52;
  }

  /** How far the bits of `n` bytes are shifted to fill whole sextets. */
  function Spare(n: nat): nat {
    if n % 3 == 0 then 1 else if n % 3 == 1 then 16 else 4
  }

  lemma SmallPowers()
    ensures Pow(64, 0) == Pow(256, 0) == 1
    ensures Pow(64, 2) == 4096 && Pow(64, 3) == 262144 && Pow(64, 4) == 16777216
    ensures Pow(256, 1) == 256 && Pow(256, 2) == 65536 && Pow(256, 3) == 16777216
  {
    assert Pow(64, 1) == 64 && Pow(64, 2) == 64 * Pow(64, 1) && Pow(64, 3) == 64 * Pow(64, 2);
    assert Pow(256, 2) == 256 * Pow(256, 1);
  }

  lemma {:induction false} SextetPower(bs: seq<Byte>)
    ensures Pow(64, |Groups(bs)|) == Pow(256, |bs|) * Spare(|bs|)
  {
    SmallPowers();
    hide Group0, Group1, Group2, Group3;
    if |bs| >= 3 {
      SextetPower(bs[3..]);
      PowAdds(64, 4, |Groups(bs[3..])|);
      PowAdds(256, 3, |bs[3..]|);
      Regroup(16777216, Pow(256, |bs| - 3), Spare(|bs|));
    }
    hide Pow;
  }

  lemma TripleNumber(x: Byte, y: Byte, z: Byte)
    ensures Num(64, [Group0(x), Group1(x, y), Group2(y, z), Group3(z)]) == Num(256, [x, y, z])
  {
    NumOfFour(64, Group0(x), Group1(x, y), Group2(y, z), Group3(z));
    NumOfThree(256, x, y, z);
  }

  lemma NumOfTwo(base: nat, p: nat, q: nat)
    ensures Num(base, [p]) == p && Num(base, [p, q]) == p * base + q
  {
    assert [p][..0] == [] && [p, q][..1] == [p];
    assert Num(base, []) == 0;
  }

  lemma NumOfThree(base: nat, p: nat, q: nat, r: nat)
    ensures Num(base, [p, q, r]) == (p * base + q) * base + r
  {
    NumOfTwo(base, p, q);
    assert [p, q, r][..2] == [p, q];
  }

  lemma NumOfFour(base: nat, p: nat, q: nat, r: nat, t: nat)
    ensures Num(base, [p, q, r, t]) == ((p * base + q) * base + r) * base + t
  {
    NumOfThree(base, p, q, r);
    assert [p, q, r, t][..3] == [p, q, r];
  }

  lemma {:induction false} SextetsKeepTheNumber(bs: seq<Byte>)
    decreases |bs|, 1
    ensures Num(64, Groups(bs)) == Num(256, bs) * Spare(|bs|)
  {
    if |bs| == 1 {
      NumOfTwo(64, Group0(bs[0]), Group1(bs[0], 0));
      NumOfTwo(256, bs[0], 0);
      assert bs == [bs[0]];
    } else if |bs| == 2 {
      NumOfThree(64, Group0(bs[0]), Group1(bs[0], bs[1]), Group2(bs[1], 0));
      NumOfTwo(256, bs[0], bs[1]);
      assert bs == [bs[0], bs[1]];
    } else if |bs| >= 3 {
      LongerKeepTheNumber(bs[0], bs[1], bs[2], bs[3..]);
      assert bs == [bs[0], bs[1], bs[2]] + bs[3..];
    }
  }

  lemma {:induction false} LongerKeepTheNumber(x: Byte, y: Byte, z: Byte, rest: seq<Byte>)
    decreases 3 + |rest|, 0
    ensures Num(64, Groups([x, y, z] + rest)) == Num(256, [x, y, z] + rest) * Spare(3 + |rest|)
  {
    SextetsKeepTheNumber(rest);
    GroupsCons(x, y, z, rest);
    TripleNumber(x, y, z);
    SextetPower(rest);
    var head, g := Num(256, [x, y, z]), [Group0(x), Group1(x, y), Group2(y, z), Group3(z)];
    NumConcat(64, g, Groups(rest));
    NumConcat(256, [x, y, z], rest);
    hide Num, Pow, Groups, Group0, Group1, Group2, Group3;
    Together(head, Pow(256, |rest|), Spare(|rest|), Num(256, rest));
    assert Spare(3 + |rest|) == Spare(|rest|);
    hide Spare;
  }

  lemma Together(head: nat, p: nat, spare: nat, rest: nat)
    ensures head * (p * spare) + rest * spare == (head * p + rest) * spare
  {
    Regroup(head, p, spare);
  }

  /** Character by character, against the alphabets spelled out: the bytes are read as one number, shifted
      up to whole sextets, and its digit in base 64 picks the letter. */
  lemma EncodedLetter(a: Alphabet, bs: seq<Byte>, k: nat)
    requires k < |EncodeRaw(a, bs)|
    ensures var n := Num(256, bs) * (if |bs| % 3 == 0 then 1 else if |bs| % 3 == 1 then 16 else 4);
      var letters := if a == Standard then STANDARD_LETTERS else URL_SAFE_LETTERS;
      |letters| == 64 && EncodeRaw(a, bs)[k] == letters[n / Pow(64, |EncodeRaw(a, bs)| - 1 - k) % 64]
  {
    SextetsKeepTheNumber(bs);
    SymbolIsLetter(a, Groups(bs)[k]);
    var xs: seq<nat> := Groups(bs);
    hide Num, Pow, Groups, Symbol;
    assert forall i :: 0 <= i < |xs| ==> xs[i] < 64;
    DigitAt(64, xs, k);
  }

  // ----- what decodes -----

  lemma ValueIsPlace(a: Alphabet, c: char)
    ensures Value(a, c).Some? <==> c in (if a == Standard then STANDARD_LETTERS else URL_SAFE_LETTERS)
  {
    var letters := if a == Standard then STANDARD_LETTERS else URL_SAFE_LETTERS;
    if Value(a, c).Some? {
      SymbolIsLetter(a, Value(a, c).value);
    }
    if c in letters {
      UpperCase(0);
      LowerCase(0);
      var x :| 0 <= x < |letters| && letters[x] == c;
      SymbolIsLetter(a, x);
      SymbolHasValue(a, x);
    }
  }

  lemma {:induction false} ValuesIff(a: Alphabet, s: string)
    ensures Values(a, s).Some? <==> forall i :: 0 <= i < |s| ==> Value(a, s[i]).Some?
    ensures Values(a, s).Some? ==> |Values(a, s).value| == |s|
  {
    if s != [] {
      ValuesIff(a, s[1..]);
      assert s == [s[0]] + s[1..];
      assert forall i :: 0 < i < |s| ==> s[i] == s[1..][i - 1];
    }
    hide Value;
  }

  lemma {:induction false} UngroupIff(xs: seq<Sextet>)
    ensures Ungroup(xs).None? <==> |xs| % 4 == 1
  {
    if |xs| >= 4 {
      UngroupIff(xs[4..]);
    }
  }

  /** A text without line breaks decodes exactly when all its characters are in the alphabet and no single
      one is left over after the groups of four. */
  lemma DecodesIff(a: Alphabet, s: string)
    requires '\r' !in s && '\n' !in s
    ensures DecodeRaw(a, s).Some? <==>
      (forall c :: c in s ==> c in (if a == Standard then STANDARD_LETTERS else URL_SAFE_LETTERS)) && |s| % 4 != 1
  {
    NothingToStrip(s);
    ValuesIff(a, s);
    var letters := if a == Standard then STANDARD_LETTERS else URL_SAFE_LETTERS;
    forall i | 0 <= i < |s| ensures Value(a, s[i]).Some? <==> s[i] in letters {
      ValueIsPlace(a, s[i]);
    }
    if Values(a, s).Some? {
      UngroupIff(Values(a, s).value);
    }
    hide Value, Values, Ungroup, StripNewlines;
    assert (forall c :: c in s ==> c in letters) <==> forall i :: 0 <= i < |s| ==> s[i] in letters;
  }

  lemma {:induction false} NothingToStrip(s: string)
    requires '\r' !in s && '\n' !in s
    ensures StripNewlines(s) == s
  {
    if s != [] {
      NothingToStrip(s[1..]);
    }
  }

  /** A line break anywhere changes nothing. */
  lemma {:induction false} LineBreaksAreSkipped(a: Alphabet, s: string, t: string, c: char)
    requires c == '\r' || c == '\n'
    ensures DecodeRaw(a, s + [c] + t) == DecodeRaw(a, s + t)
  {
    StrippedApart(s, [c] + t);
    StrippedApart(s, t);
    assert s + [c] + t == s + ([c] + t);
  }

  lemma {:induction false} StrippedApart(s: string, t: string)
    ensures StripNewlines(s + t) == StripNewlines(s) + StripNewlines(t)
  {
    if s == [] {
      assert s + t == t;
    } else {
      StrippedApart(s[1..], t);
      assert (s + t)[1..] == s[1..] + t;
      var a, b := StripNewlines(s[1..]), StripNewlines(t);
      assert [s[0]] + (a + b) == [s[0]] + a + b;
    }
  }
}
