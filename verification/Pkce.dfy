/** The S256 proof key of RFC 7636 and the opaque tokens the service hands out.
    SHA-256 itself is a parameter: any function from text to 32 bytes. */
module Pkce {
  import opened Prelude
  import opened Base64
  import opened Digits

  type Digest32 = d: seq<Byte> | |d| == 32 witness seq(32, i => 0)

  const MAGIC_LINK_TOKEN_MAX_LEN := 256
  const MAGIC_LINK_CODE_MAX_LEN := 128

  predicate ChallengeChar(c: char) {
    'A' <= c <= 'Z' || 'a' <= c <= 'z' || '0' <= c <= '9' || c == '-' || c == '_'
  }

  predicate VerifierChar(c: char) {
    ChallengeChar(c) || c == '.' || c == '~'
  }

  predicate IsCodeChallenge(c: string) {
    |c| == 43 && forall i :: 0 <= i < |c| ==> ChallengeChar(c[i])
  }

  /** Section 4.1 of RFC 7636: 43 to 128 unreserved characters. */
  predicate IsCodeVerifier(v: string) {
    43 <= |v| <= 128 && forall i :: 0 <= i < |v| ==> VerifierChar(v[i])
  }

  lemma LettersSpelledOut(c: char)
    ensures ChallengeChar(c) <==> c in URL_SAFE_LETTERS
    ensures VerifierChar(c) <==> c in URL_SAFE_LETTERS || c in ".~"
  {
    assert Value(UrlSafe, c).Some? <==> ChallengeChar(c);
    ValueIsPlace(UrlSafe, c);
  }

  lemma ChallengeSpelledOut(c: string)
    ensures IsCodeChallenge(c) <==> |c| == 43 && forall i :: 0 <= i < |c| ==> c[i] in URL_SAFE_LETTERS
  {
    forall i | 0 <= i < |c| ensures ChallengeChar(c[i]) <==> c[i] in URL_SAFE_LETTERS {
      LettersSpelledOut(c[i]);
    }
    hide ChallengeChar;
  }

  lemma VerifierSpelledOut(v: string)
    ensures IsCodeVerifier(v) <==> 43 <= |v| <= 128 && forall i :: 0 <= i < |v| ==> v[i] in URL_SAFE_LETTERS || v[i] in ".~"
  {
    forall i | 0 <= i < |v| ensures VerifierChar(v[i]) <==> v[i] in URL_SAFE_LETTERS || v[i] in ".~" {
      LettersSpelledOut(v[i]);
    }
    hide VerifierChar;
  }

  method ValidCodeChallenge(c: string) returns (ok: bool)
    ensures ok <==> IsCodeChallenge(c)
    ensures ok <==> |c| == 43 && forall i :: 0 <= i < |c| ==> c[i] in URL_SAFE_LETTERS
  {
    ChallengeSpelledOut(c);
    if |c| != 43 {
      return false;
    }
    var i := 0;
    while i < |c|
      invariant 0 <= i <= |c|
      invariant forall k :: 0 <= k < i ==> ChallengeChar(c[k])
    {
      if !ChallengeChar(c[i]) {
        return false;
      }
      i := i + 1;
    }
    return true;
  }

  method ValidCodeVerifier(v: string) returns (ok: bool)
    ensures ok <==> IsCodeVerifier(v)
    ensures ok <==> 43 <= |v| <= 128 && forall i :: 0 <= i < |v| ==> v[i] in URL_SAFE_LETTERS || v[i] in ".~"
  {
    VerifierSpelledOut(v);
    if |v| < 43 || |v| > 128 {
      return false;
    }
    var i := 0;
    while i < |v|
      invariant 0 <= i <= |v|
      invariant forall k :: 0 <= k < i ==> VerifierChar(v[k])
    {
      if !VerifierChar(v[i]) {
        return false;
      }
      i := i + 1;
    }
    return true;
  }

  function PkceChallenge(sha: string -> Digest32, verifier: string): string {
    EncodeRaw(UrlSafe, sha(verifier))
  }

  /** `GenerateOpaqueToken` on 32 random bytes. */
  function OpaqueToken(random: Digest32): string {
    EncodePadded(UrlSafe, random)
  }

  lemma UrlSafeLetters(s: string)
    ensures InAlphabet(UrlSafe, s) <==> forall i :: 0 <= i < |s| ==> ChallengeChar(s[i])
  {
    assert forall c :: Value(UrlSafe, c).Some? <==> ChallengeChar(c);
  }

  /** The challenge of any verifier is accepted, and two verifiers share one exactly when their digests agree.
      Its letters are the digits in base 64 of the digest, shifted up by two bits (appendix A of RFC 7636). */
  lemma ChallengeEncodesDigest(sha: string -> Digest32, v: string, v': string)
    ensures IsCodeChallenge(PkceChallenge(sha, v))
    ensures |PkceChallenge(sha, v)| == 43 && |URL_SAFE_LETTERS| == 64
    ensures forall k :: 0 <= k < 43 ==>
      PkceChallenge(sha, v)[k] == URL_SAFE_LETTERS[Num(256, sha(v)) * 4 / Pow(64, 42 - k) % 64]
    ensures PkceChallenge(sha, v) == PkceChallenge(sha, v') <==> sha(v) == sha(v')
  {
    EncodedShape(UrlSafe, sha(v));
    UrlSafeLetters(PkceChallenge(sha, v));
    RoundTrip(UrlSafe, sha(v));
    RoundTrip(UrlSafe, sha(v'));
    hide EncodeRaw, DecodeRaw, InAlphabet, Num, Pow;
    SymbolIsLetter(UrlSafe, 0);
    forall k | 0 <= k < 43
      ensures PkceChallenge(sha, v)[k] == URL_SAFE_LETTERS[Num(256, sha(v)) * 4 / Pow(64, 42 - k) % 64]
    {
      EncodedLetter(UrlSafe, sha(v), k);
    }
  }

  lemma {:induction false} UngroupAll(xs: seq<Sextet>)
    requires |xs| % 4 == 3
    ensures Ungroup(xs).Some? && |Ungroup(xs).value| == |xs| / 4 * 3 + 2
    ensures Groups(Ungroup(xs).value) == xs <==> xs[|xs| - 1] % 4 == 0
  {
    if |xs| == 3 {
      UngroupThree(xs);
    } else {
      UngroupAll(xs[4..]);
      hide Groups, Ungroup;
      UngroupStep(xs, Ungroup(xs[4..]).value);
      assert xs[4..][|xs[4..]| - 1] == xs[|xs| - 1];
    }
  }

  lemma UngroupThree(xs: seq<Sextet>)
    requires |xs| == 3
    ensures Ungroup(xs).Some? && |Ungroup(xs).value| == 2
    ensures Groups(Ungroup(xs).value) == xs <==> xs[2] % 4 == 0
  {
    var g := Groups(Ungroup(xs).value);
    assert |g| == 3 && g[0] == xs[0] && g[1] == xs[1] && g[2] == xs[2] / 4 * 4;
  }

  lemma UngroupStep(xs: seq<Sextet>, rest: seq<Byte>)
    requires |xs| >= 4 && Ungroup(xs[4..]) == Some(rest)
    ensures Ungroup(xs).Some? && |Ungroup(xs).value| == 3 + |rest|
    ensures Groups(Ungroup(xs).value) == xs <==> Groups(rest) == xs[4..]
  {
    var bs := Ungroup(xs).value;
    assert bs[3..] == rest;
    var g := Groups(bs);
    assert g[0] == xs[0] && g[1] == xs[1] && g[2] == xs[2] && g[3] == xs[3];
    assert g[4..] == Groups(rest);
    assert xs == xs[..4] + xs[4..];
    assert g == g[..4] + g[4..];
    assert g[..4] == xs[..4];
  }

  lemma {:induction false} LettersOfValues(a: Alphabet, s: string)
    requires InAlphabet(a, s)
    ensures Values(a, s).Some? && |Values(a, s).value| == |s|
    ensures Letters(a, Values(a, s).value) == s
    ensures forall i :: 0 <= i < |s| ==> Value(a, s[i]) == Some(Values(a, s).value[i])
  {
    if s != [] {
      assert forall i :: 0 <= i < |s[1..]| ==> s[1..][i] == s[i + 1];
      LettersOfValues(a, s[1..]);
      assert Value(a, s[0]).Some?;
      var xs := Values(a, s).value;
      assert xs[1..] == Values(a, s[1..]).value;
      assert s == [s[0]] + s[1..];
    }
  }

  lemma LastLetters(c: char)
    requires ChallengeChar(c)
    ensures Value(UrlSafe, c).value % 4 == 0 <==> c in "AEIMQUYcgkosw048"
  {
  }

  /** The format check admits more than encodings of digests: of the well-formed challenges exactly
      those whose last symbol has its two low bits clear encode some 32-byte digest. A challenge
      outside this set can be requested but no verifier will ever match it. */
  lemma WellFormedChallengeEncodesDigestIff(c: string)
    requires IsCodeChallenge(c)
    ensures (exists d: Digest32 :: EncodeRaw(UrlSafe, d) == c) <==> c[42] in "AEIMQUYcgkosw048"
  {
    LastLetters(c[42]);
    UrlSafeLetters(c);
    LettersOfValues(UrlSafe, c);
    var xs := Values(UrlSafe, c).value;
    UngroupAll(xs);
    var bs: Digest32 := Ungroup(xs).value;
    if xs[42] % 4 == 0 {
      assert EncodeRaw(UrlSafe, bs) == c;
    }
    forall d: Digest32 | EncodeRaw(UrlSafe, d) == c ensures xs[42] % 4 == 0 {
      ValuesOfLetters(UrlSafe, Groups(d));
      UngroupGroups(d);
    }
  }

  /** A generated token is 44 characters of printable text, so it survives trimming and passes the
      length guards of verify and exchange; distinct random bytes give distinct tokens. */
  lemma OpaqueTokenPassesGuards(random: Digest32, other: Digest32)
    ensures |OpaqueToken(random)| == 44 <= MAGIC_LINK_CODE_MAX_LEN < MAGIC_LINK_TOKEN_MAX_LEN
    ensures OpaqueToken(random) == EncodeRaw(UrlSafe, random) + "="
    ensures Trim(OpaqueToken(random)) == OpaqueToken(random)
    ensures OpaqueToken(random) == OpaqueToken(other) <==> random == other
  {
    EncodedShape(UrlSafe, random);
    EncodedShape(UrlSafe, other);
    var t := OpaqueToken(random);
    assert Value(UrlSafe, EncodeRaw(UrlSafe, random)[0]).Some? && t[0] == EncodeRaw(UrlSafe, random)[0];
    assert t[43] == '=';
    assert t[..43] == EncodeRaw(UrlSafe, random);
    assert OpaqueToken(other)[..43] == EncodeRaw(UrlSafe, other);
    RoundTrip(UrlSafe, random);
    RoundTrip(UrlSafe, other);
  }
}
