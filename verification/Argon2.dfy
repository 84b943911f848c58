/** Printer and parser of stored password hashes, and the verification they support.
    Argon2id and bcrypt are parameters. */
module Argon2 {
  import opened Prelude
  import opened Base64
  import opened Digits

  type Uint32 = n: int | 0 <= n < 0x1_0000_0000
  type Uint8 = n: int | 0 <= n < 256

  const ARGON2_VERSION := 0x13

  datatype Params = Params(memory: Uint32, iterations: Uint32, parallelism: Uint8,
                           saltLength: Uint32, keyLength: Uint32)

  datatype Decoded = Decoded(hash: seq<Byte>, salt: seq<Byte>, params: Params)

  /** Argon2id: password, salt, iterations, memory, parallelism, key length. */
  type Kdf = (seq<Byte>, seq<Byte>, Uint32, Uint32, Uint8, Uint32) -> seq<Byte>

  // ----- decimal numbers -----

  function Number(s: string): nat
    requires forall i :: 0 <= i < |s| ==> IsDigit(s[i])
  {
    if s == [] then 0 else Number(s[..|s| - 1]) * 10 + DigitValue(s[|s| - 1])
  }

  lemma {:induction false} NumberOfDecimal(n: nat)
    ensures Number(Decimal(n)) == n
  {
    if n >= 10 {
      NumberOfDecimal(n / 10);
      assert Decimal(n)[..|Decimal(n)| - 1] == Decimal(n / 10);
    } else {
      assert Decimal(n)[..0] == [];
    }
  }

  lemma DigitIs(d: int)
    requires 0 <= d < 10
    ensures DigitChar(d) == "0123456789"[d]
  {
    var digits := "0123456789";
    assert digits[d] as int == 48 + d;
  }

  /** The digits of a printed number, one by one, without leading zeros. */
  lemma {:induction false} DecimalDigit(n: nat, k: nat)
    requires k < |Decimal(n)|
    ensures Decimal(n)[k] == "0123456789"[n / Pow(10, |Decimal(n)| - 1 - k) % 10]
    ensures |Decimal(n)| > 1 ==> Decimal(n)[0] != '0'
  {
    DigitIs(n % 10);
    assert Pow(10, 0) == 1;
    if n >= 10 {
      var last := |Decimal(n)| - 1;
      assert Decimal(n)[..last] == Decimal(n / 10);
      DecimalDigit(n / 10, if k == last then 0 else k);
      if n / 10 < 10 {
        DigitIs(n / 10);
      }
      if k < last {
        OneDigitFurther(n, last - k - 1);
      }
    }
    hide Pow, DigitChar;
  }

  lemma OneDigitFurther(n: nat, m: nat)
    ensures n / Pow(10, m + 1) == n / 10 / Pow(10, m)
  {
    assert Pow(10, m + 1) == 10 * Pow(10, m);
    DivTwice(n, 10, Pow(10, m));
  }

  // ----- fmt.Sscanf -----

  function SkipBlanks(s: string): string {
    if s != [] && IsBlank(s[0]) && s[0] != '\n' then SkipBlanks(s[1..]) else s
  }

  function DigitRun(s: string): (n: nat)
    ensures n <= |s| && forall i :: 0 <= i < n ==> IsDigit(s[i])
  {
    if s != [] && IsDigit(s[0]) then 1 + DigitRun(s[1..]) else 0
  }

  datatype Scan = Stop | Got(value: nat, rest: string)

  /** The `%d` verb into an unsigned variable: blanks, then the longest digit run, which must fit. */
  function ScanUint(s: string, bound: nat): (r: Scan)
    ensures r.Got? ==> r.value < bound
  {
    var t := SkipBlanks(s);
    var n := DigitRun(t);
    if n == 0 || Number(t[..n]) >= bound then Stop else Got(Number(t[..n]), t[n..])
  }

  /** A literal followed by `%d`. */
  function ScanField(literal: string, s: string, bound: nat): (r: Scan)
    ensures r.Got? ==> r.value < bound
  {
    if literal <= s then ScanUint(s[|literal|..], bound) else Stop
  }

  /** `Sscanf("m=%d,t=%d,p=%d")`: fields scanned before the first failure keep their values. */
  function ScanParams(s: string): (Uint32, Uint32, Uint8) {
    match ScanField("m=", s, 0x1_0000_0000)
    case Stop => (0, 0, 0)
    case Got(m, s1) =>
      match ScanField(",t=", s1, 0x1_0000_0000)
      case Stop => (m, 0, 0)
      case Got(t, s2) =>
        match ScanField(",p=", s2, 256)
        case Stop => (m, t, 0)
        case Got(p, _) => (m, t, p)
  }

  lemma {:induction false} DigitRunOfConcat(digits: string, rest: string)
    requires forall i :: 0 <= i < |digits| ==> IsDigit(digits[i])
    requires rest == [] || !IsDigit(rest[0])
    ensures DigitRun(digits + rest) == |digits|
  {
    if digits == [] {
      assert digits + rest == rest;
    } else {
      assert (digits + rest)[1..] == digits[1..] + rest;
      DigitRunOfConcat(digits[1..], rest);
    }
  }

  lemma ScanPrintedField(literal: string, n: nat, rest: string, bound: nat)
    requires n < bound
    requires rest == [] || !IsDigit(rest[0])
    ensures ScanField(literal, literal + Decimal(n) + rest, bound) == Got(n, rest)
  {
    var t := Decimal(n) + rest;
    assert (literal + Decimal(n) + rest)[|literal|..] == t;
    assert IsDigit(t[0]);
    DigitRunOfConcat(Decimal(n), rest);
    assert t[..|Decimal(n)|] == Decimal(n);
    assert t[|Decimal(n)|..] == rest;
    NumberOfDecimal(n);
  }

  lemma {:induction false} BlanksAreSkipped(blanks: string, s: string)
    requires forall i :: 0 <= i < |blanks| ==> blanks[i] in " \t\U{0B}\U{0C}\r"
    requires s == [] || !IsBlank(s[0])
    ensures SkipBlanks(blanks + s) == s
  {
    if blanks == [] {
      assert blanks + s == s;
    } else {
      BlankButNewline(blanks[0]);
      BlanksAreSkipped(blanks[1..], s);
      assert (blanks + s)[1..] == blanks[1..] + s;
    }
  }

  lemma BlankButNewline(c: char)
    requires c in " \t\U{0B}\U{0C}\r"
    ensures IsBlank(c) && c != '\n'
  {
  }

  lemma {:induction false} NumberIsNum(s: string)
    requires forall i :: 0 <= i < |s| ==> '0' <= s[i] <= '9'
    ensures Number(s) == Num(10, seq(|s|, i requires 0 <= i < |s| => s[i] as int - 48))
  {
    if s != [] {
      var before := s[..|s| - 1];
      NumberIsNum(before);
      var xs := seq(|s|, i requires 0 <= i < |s| => s[i] as int - 48);
      assert xs[..|xs| - 1] == seq(|before|, i requires 0 <= i < |before| => before[i] as int - 48);
    }
  }

  /** One field: the literal, any blanks but a line feed, and digits, leading zeros included, whose number
      must fit. */
  lemma ScannedField(literal: string, blanks: string, digits: string, rest: string, bound: nat)
    requires forall i :: 0 <= i < |blanks| ==> blanks[i] in " \t\U{0B}\U{0C}\r"
    requires digits != [] && forall i :: 0 <= i < |digits| ==> '0' <= digits[i] <= '9'
    requires rest == [] || !('0' <= rest[0] <= '9')
    ensures var n := Num(10, seq(|digits|, i requires 0 <= i < |digits| => digits[i] as int - 48));
      ScanField(literal, literal + (blanks + (digits + rest)), bound) == if n < bound then Got(n, rest) else Stop
  {
    var t := digits + rest;
    assert (literal + (blanks + t))[|literal|..] == blanks + t;
    assert t[0] == digits[0];
    BlanksAreSkipped(blanks, t);
    DigitRunOfConcat(digits, rest);
    assert t[..|digits|] == digits && t[|digits|..] == rest;
    NumberIsNum(digits);
  }

  /** Parameters read before the text breaks off keep their values; the others are zero. */
  lemma UnfinishedParams(m: Uint32, t: Uint32, rest: string)
    requires rest == [] || !IsDigit(rest[0])
    ensures !(",t=" <= rest) ==> ScanParams("m=" + Decimal(m) + rest) == (m, 0, 0)
    ensures !(",p=" <= rest) ==> ScanParams("m=" + Decimal(m) + (",t=" + Decimal(t) + rest)) == (m, t, 0)
    ensures !("m=" <= rest) ==> ScanParams(rest) == (0, 0, 0)
  {
    ScanPrintedField("m=", m, rest, 0x1_0000_0000);
    ScanPrintedField("m=", m, ",t=" + Decimal(t) + rest, 0x1_0000_0000);
    ScanPrintedField(",t=", t, rest, 0x1_0000_0000);
    hide Decimal, ScanUint;
  }

  // ----- encode and decode -----

  function PrintParallelism(p: Params): string {
    ",p=" + Decimal(p.parallelism) + ""
  }

  function PrintIterations(p: Params): string {
    ",t=" + Decimal(p.iterations) + PrintParallelism(p)
  }

  function PrintParams(p: Params): string {
    "m=" + Decimal(p.memory) + PrintIterations(p)
  }

  function Encode(p: Params, hash: seq<Byte>, salt: seq<Byte>): string {
    "" + ['$'] + ("argon2id" + ['$'] + ("v=" + Decimal(ARGON2_VERSION) + ['$'] +
      (PrintParams(p) + ['$'] + (EncodeRaw(Standard, salt) + ['$'] + EncodeRaw(Standard, hash)))))
  }

  function Decode(encoded: string): Option<Decoded> {
    DecodeParts(Split(encoded, '$'))
  }

  function DecodeParts(parts: seq<string>): Option<Decoded> {
    if |parts| != 6 || parts[1] != "argon2id" then None
    else
      var (m, t, p) := ScanParams(parts[3]);
      match DecodeRaw(Standard, parts[4])
      case None => None
      case Some(salt) =>
        match DecodeRaw(Standard, parts[5])
        case None => None
        case Some(hash) =>
          Some(Decoded(hash, salt, Params(m, t, p, |salt| % 0x1_0000_0000, |hash| % 0x1_0000_0000)))
  }

  lemma NoDollarInDecimal(n: nat)
    ensures '$' !in Decimal(n)
  {
    assert !IsDigit('$');
  }

  lemma NoDollarInBase64(bs: seq<Byte>)
    ensures '$' !in EncodeRaw(Standard, bs)
  {
    EncodedShape(Standard, bs);
    assert Value(Standard, '$').None?;
  }

  lemma NoDollarInParams(p: Params)
    ensures '$' !in PrintParams(p)
  {
    NoDollarInDecimal(p.memory);
    NoDollarInDecimal(p.iterations);
    NoDollarInDecimal(p.parallelism);
  }

  lemma ParamsRoundTrip(p: Params)
    ensures ScanParams(PrintParams(p)) == (p.memory, p.iterations, p.parallelism)
  {
    ScanPrintedField("m=", p.memory, PrintIterations(p), 0x1_0000_0000);
    ScanPrintedField(",t=", p.iterations, PrintParallelism(p), 0x1_0000_0000);
    ScanPrintedField(",p=", p.parallelism, "", 256);
    ScanParamsChain(PrintParams(p), p.memory, PrintIterations(p), p.iterations, PrintParallelism(p), p.parallelism);
  }

  lemma ScanParamsChain(s: string, m: nat, s1: string, t: nat, s2: string, p: nat)
    requires ScanField("m=", s, 0x1_0000_0000) == Got(m, s1)
    requires ScanField(",t=", s1, 0x1_0000_0000) == Got(t, s2)
    requires ScanField(",p=", s2, 256) == Got(p, "")
    ensures ScanParams(s) == (m, t, p)
  {
  }

  lemma SplitFirst(a: string, b: string)
    requires '$' !in a
    ensures Split(a + ['$'] + b, '$') == [a] + Split(b, '$')
  {
    SplitJoined(a, b, '$');
    SplitWithoutSeparator(a, '$');
  }

  lemma EncodedParts(p: Params, hash: seq<Byte>, salt: seq<Byte>)
    ensures Split(Encode(p, hash, salt), '$') ==
            ["", "argon2id", "v=" + Decimal(ARGON2_VERSION), PrintParams(p), EncodeRaw(Standard, salt), EncodeRaw(Standard, hash)]
  {
    var e5 := EncodeRaw(Standard, hash);
    var e4 := EncodeRaw(Standard, salt) + ['$'] + e5;
    var e3 := PrintParams(p) + ['$'] + e4;
    var e2 := "v=" + Decimal(ARGON2_VERSION) + ['$'] + e3;
    var e1 := "argon2id" + ['$'] + e2;
    NoDollarInBase64(hash);
    NoDollarInBase64(salt);
    NoDollarInParams(p);
    NoDollarInDecimal(ARGON2_VERSION);
    SplitWithoutSeparator(e5, '$');
    SplitFirst(EncodeRaw(Standard, salt), e5);
    SplitFirst(PrintParams(p), e4);
    SplitFirst("v=" + Decimal(ARGON2_VERSION), e3);
    SplitFirst("argon2id", e2);
    SplitFirst("", e1);
  }

  lemma DecodeGivenParts(parts: seq<string>, hash: seq<Byte>, salt: seq<Byte>, p: Params)
    requires |parts| == 6 && parts[1] == "argon2id"
    requires ScanParams(parts[3]) == (p.memory, p.iterations, p.parallelism)
    requires DecodeRaw(Standard, parts[4]) == Some(salt) && DecodeRaw(Standard, parts[5]) == Some(hash)
    requires |hash| == p.keyLength && |salt| == p.saltLength
    ensures DecodeParts(parts) == Some(Decoded(hash, salt, p))
  {
  }

  /** Decoding what was encoded gives back the same bytes and parameters, for all bytes and parameters. */
  lemma EncodeDecodeRoundTrip(p: Params, hash: seq<Byte>, salt: seq<Byte>)
    requires |hash| == p.keyLength && |salt| == p.saltLength
    ensures Decode(Encode(p, hash, salt)) == Some(Decoded(hash, salt, p))
  {
    var parts := Split(Encode(p, hash, salt), '$');
    assert |parts| == 6 && parts[1] == "argon2id" && parts[3] == PrintParams(p)
        && parts[4] == EncodeRaw(Standard, salt) && parts[5] == EncodeRaw(Standard, hash) by {
      EncodedParts(p, hash, salt);
    }
    ParamsRoundTrip(p);
    RoundTrip(Standard, salt);
    RoundTrip(Standard, hash);
    DecodeGivenParts(parts, hash, salt, p);
  }

  /** The stored text: `$`-separated, in this order, with the version spelled out. */
  lemma EncodedText(p: Params, hash: seq<Byte>, salt: seq<Byte>)
    ensures Split(Encode(p, hash, salt), '$') ==
      ["", "argon2id", "v=19", "m=" + Decimal(p.memory) + ",t=" + Decimal(p.iterations) + ",p=" + Decimal(p.parallelism),
       EncodeRaw(Standard, salt), EncodeRaw(Standard, hash)]
  {
    EncodedParts(p, hash, salt);
    assert Decimal(1) == "1" && Decimal(19) == "19";
    assert "v=" + "19" == "v=19";
    hide Encode, Split, EncodeRaw, Decimal;
    var m, t, q := Decimal(p.memory), Decimal(p.iterations), Decimal(p.parallelism);
    assert "m=" + m + (",t=" + t + (",p=" + q + "")) == "m=" + m + ",t=" + t + ",p=" + q;
  }

  function Join(parts: seq<string>): string
    requires parts != []
  {
    if |parts| == 1 then parts[0] else parts[0] + ['$'] + Join(parts[1..])
  }

  lemma {:induction false} SplitOfJoin(parts: seq<string>)
    requires parts != [] && forall i :: 0 <= i < |parts| ==> '$' !in parts[i]
    ensures Split(Join(parts), '$') == parts
  {
    if |parts| == 1 {
      SplitWithoutSeparator(parts[0], '$');
    } else {
      SplitOfJoin(parts[1..]);
      SplitFirst(parts[0], Join(parts[1..]));
    }
  }

  lemma {:induction false} JoinOfSplit(s: string)
    ensures Join(Split(s, '$')) == s && forall i :: 0 <= i < |Split(s, '$')| ==> '$' !in Split(s, '$')[i]
  {
    if s != [] {
      JoinOfSplit(s[1..]);
      var rest := Split(s[1..], '$');
      if s[0] == '$' {
        assert Split(s, '$')[1..] == rest;
        assert "" + ['$'] + s[1..] == s;
      } else {
        assert Split(s, '$')[1..] == rest[1..];
        assert [s[0]] + s[1..] == s;
      }
    }
  }

  /** Six parts between dollar signs, the second `argon2id`, the last two unpadded base64. */
  ghost predicate Stored(parts: seq<string>) {
    && |parts| == 6 && (forall i :: 0 <= i < 6 ==> '$' !in parts[i])
    && parts[1] == "argon2id" && DecodeRaw(Standard, parts[4]).Some? && DecodeRaw(Standard, parts[5]).Some?
  }

  /** Exactly such texts decode. Neither the version nor the parameters can make decoding fail. */
  lemma DecodesIff(s: string)
    ensures Decode(s).Some? <==> exists parts: seq<string> :: Stored(parts) && s == Join(parts)
  {
    var pieces := Split(s, '$');
    JoinOfSplit(s);
    if Decode(s).Some? {
      assert Stored(pieces);
    }
    if parts: seq<string> :| Stored(parts) && s == Join(parts) {
      SplitOfJoin(parts);
    }
  }

  // ----- hashing and verifying -----

  function Hash(kdf: Kdf, p: Params, pepper: seq<Byte>, password: seq<Byte>, salt: seq<Byte>): string {
    Encode(p, kdf(password + pepper, salt, p.iterations, p.memory, p.parallelism, p.keyLength), salt)
  }

  predicate IsBcrypt(encoded: string) {
    "$2a$" <= encoded || "$2b$" <= encoded || "$2y$" <= encoded
  }

  /** `None` is an error return; bcrypt decides for imported hashes. */
  function Verify(kdf: Kdf, bcrypt: (string, seq<Byte>) -> Option<bool>, pepper: seq<Byte>,
                  password: seq<Byte>, encoded: string): Option<bool>
  {
    if IsBcrypt(encoded) then bcrypt(encoded, password)
    else
      match Decode(encoded)
      case None => None
      case Some(d) =>
        Some(d.hash == kdf(password + pepper, d.salt, d.params.iterations, d.params.memory,
                           d.params.parallelism, d.params.keyLength))
  }

  /** An imported hash is left to bcrypt, without the pepper; any other text is not. */
  lemma ImportedHashesGoToBcrypt(kdf: Kdf, bcrypt: (string, seq<Byte>) -> Option<bool>, pepper: seq<Byte>,
                                 password: seq<Byte>, encoded: string)
    ensures |encoded| >= 4 && encoded[..4] in {"$2a$", "$2b$", "$2y$"} ==>
      Verify(kdf, bcrypt, pepper, password, encoded) == bcrypt(encoded, password)
    ensures (|encoded| < 4 || encoded[..4] !in {"$2a$", "$2b$", "$2y$"}) && Decode(encoded).None? ==>
      Verify(kdf, bcrypt, pepper, password, encoded) == None
  {
    hide Decode;
    assert "$2a$" <= encoded <==> |encoded| >= 4 && encoded[..4] == "$2a$";
    assert "$2b$" <= encoded <==> |encoded| >= 4 && encoded[..4] == "$2b$";
    assert "$2y$" <= encoded <==> |encoded| >= 4 && encoded[..4] == "$2y$";
  }

  lemma EncodedIsNotBcrypt(p: Params, hash: seq<Byte>, salt: seq<Byte>)
    ensures !IsBcrypt(Encode(p, hash, salt))
  {
    assert Encode(p, hash, salt)[1] == 'a';
  }

  /** A stored hash accepts a password exactly when the key derivation agrees with the original one:
      in particular always the password it was made from, whatever the pepper and salt. */
  lemma VerifyAgainstHash(kdf: Kdf, bcrypt: (string, seq<Byte>) -> Option<bool>, p: Params,
                          pepper: seq<Byte>, password: seq<Byte>, salt: seq<Byte>, attempt: seq<Byte>)
    requires |salt| == p.saltLength
    requires forall pw, s, t, m, par, n :: |kdf(pw, s, t, m, par, n)| == n
    ensures Verify(kdf, bcrypt, pepper, password, Hash(kdf, p, pepper, password, salt)) == Some(true)
    ensures Verify(kdf, bcrypt, pepper, attempt, Hash(kdf, p, pepper, password, salt)) ==
            Some(kdf(password + pepper, salt, p.iterations, p.memory, p.parallelism, p.keyLength) ==
                 kdf(attempt + pepper, salt, p.iterations, p.memory, p.parallelism, p.keyLength))
  {
    var key := kdf(password + pepper, salt, p.iterations, p.memory, p.parallelism, p.keyLength);
    EncodedIsNotBcrypt(p, key, salt);
    EncodeDecodeRoundTrip(p, key, salt);
  }
}
