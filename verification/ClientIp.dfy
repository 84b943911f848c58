/** The caller's address behind trusted reverse proxies: the X-Forwarded-For walk.
    Address parsing and network containment are parameters. */
module ClientIp {
  import opened Prelude

  type Parser<Ip(!new)> = string -> Option<Ip>

  predicate Trusted<Ip(!new)>(networks: seq<Ip -> bool>, ip: Ip) {
    exists i :: 0 <= i < |networks| && networks[i](ip)
  }

  method IpTrusted<Ip(!new)>(networks: seq<Ip -> bool>, ip: Ip) returns (ok: bool)
    ensures ok <==> Trusted(networks, ip)
    ensures ok <==> exists i :: 0 <= i < |networks| && networks[i](ip)
  {
    var i := 0;
    while i < |networks|
      invariant 0 <= i <= |networks|
      invariant forall k :: 0 <= k < i ==> !networks[k](ip)
    {
      if networks[i](ip) {
        return true;
      }
      i := i + 1;
    }
    return false;
  }

  /** The hops of all header lines, in order (section 5.3 of RFC 9110 joins repeated lines with commas). */
  function Hops(lines: seq<string>): seq<string> {
    if lines == [] then [] else Split(lines[0], ',') + Hops(lines[1..])
  }

  predicate TrustedHop<Ip(!new)>(parse: Parser<Ip>, networks: seq<Ip -> bool>, hop: string) {
    parse(hop).Some? && Trusted(networks, parse(hop).value)
  }

  /** The walk from the right: the first hop that is not a trusted proxy, the leftmost hop when all
      are, and the peer when a hop cannot be parsed or there are none. */
  ghost function WalkBack<Ip(!new)>(parse: Parser<Ip>, networks: seq<Ip -> bool>, hops: seq<string>, peer: Ip): Ip {
    if hops == [] then peer
    else
      match parse(hops[|hops| - 1])
      case None => peer
      case Some(ip) =>
        if !Trusted(networks, ip) || |hops| == 1 then ip
        else WalkBack(parse, networks, hops[..|hops| - 1], peer)
  }

  lemma HopsFrom(lines: seq<string>, n: nat)
    requires n < |lines|
    ensures Hops(lines[n..]) == Split(lines[n], ',') + Hops(lines[n + 1..])
  {
    assert lines[n..][1..] == lines[n + 1..];
    assert lines[n..][0] == lines[n];
  }

  method CollectHops(lines: seq<string>) returns (hops: seq<string>)
    ensures hops == Hops(lines)
  {
    hops := [];
    assert lines[0..] == lines;
    var n := 0;
    while n < |lines|
      invariant 0 <= n <= |lines|
      invariant hops + Hops(lines[n..]) == Hops(lines)
    {
      HopsFrom(lines, n);
      assert hops + (Split(lines[n], ',') + Hops(lines[n + 1..])) == (hops + Split(lines[n], ',')) + Hops(lines[n + 1..]);
      hops := hops + Split(lines[n], ',');
      n := n + 1;
    }
  }

  method WalkHops<Ip(!new)>(parse: Parser<Ip>, networks: seq<Ip -> bool>, hops: seq<string>, peer: Ip)
    returns (client: Ip)
    ensures client == WalkBack(parse, networks, hops, peer)
  {
    assert hops[..|hops|] == hops;
    var i := |hops| - 1;
    while i >= 0
      invariant -1 <= i < |hops|
      invariant hops != [] ==> i >= 0
      invariant WalkBack(parse, networks, hops[..i + 1], peer) == WalkBack(parse, networks, hops, peer)
    {
      match parse(hops[i]) {
        case None => break;
        case Some(ip) =>
          var trusted := IpTrusted(networks, ip);
          if !trusted || i == 0 {
            return ip;
          }
      }
      assert hops[..i + 1][..i] == hops[..i];
      i := i - 1;
    }
    return peer;
  }

  method ResolveClient<Ip(!new)>(parse: Parser<Ip>, networks: seq<Ip -> bool>, remote: string, lines: seq<string>)
    returns (client: Option<Ip>)
    ensures parse(remote).None? ==> client.None?
    ensures parse(remote).Some? && !TrustedHop(parse, networks, remote) ==> client == parse(remote)
    ensures TrustedHop(parse, networks, remote) ==>
      client == Some(WalkBack(parse, networks, Hops(lines), parse(remote).value))
    ensures parse(remote).Some? && (forall i :: 0 <= i < |networks| ==> !networks[i](parse(remote).value)) ==> client == parse(remote)
  {
    match parse(remote) {
      case None => return None;
      case Some(peer) =>
        var peerTrusted := IpTrusted(networks, peer);
        if |networks| == 0 || !peerTrusted {
          return Some(peer);
        }
        var hops := CollectHops(lines);
        var ip := WalkHops(parse, networks, hops, peer);
        return Some(ip);
    }
  }

  /** Hop `i` decides: it parses, every hop to its right is a trusted proxy, and it is either not one
      itself or the leftmost. */
  predicate Decides<Ip(!new)>(parse: Parser<Ip>, networks: seq<Ip -> bool>, hops: seq<string>, i: int) {
    && 0 <= i < |hops|
    && parse(hops[i]).Some?
    && (forall j :: i < j < |hops| ==> TrustedHop(parse, networks, hops[j]))
    && (i == 0 || !TrustedHop(parse, networks, hops[i]))
  }

  lemma {:induction false} WalkBackIsDecidingHop<Ip(!new)>(parse: Parser<Ip>, networks: seq<Ip -> bool>,
                                                           hops: seq<string>, peer: Ip)
    ensures forall i :: Decides(parse, networks, hops, i) ==>
      WalkBack(parse, networks, hops, peer) == parse(hops[i]).value
    ensures (forall i :: !Decides(parse, networks, hops, i)) ==> WalkBack(parse, networks, hops, peer) == peer
  {
    if hops != [] {
      var n := |hops| - 1;
      if TrustedHop(parse, networks, hops[n]) && n > 0 {
        var before := hops[..n];
        WalkBackIsDecidingHop(parse, networks, before, peer);
        forall i ensures Decides(parse, networks, hops, i) <==> Decides(parse, networks, before, i) {
          if Decides(parse, networks, before, i) {
            assert forall j :: i < j < n ==> hops[j] == before[j];
          }
          if Decides(parse, networks, hops, i) {
            assert i != n;
            assert forall j :: i < j < n ==> hops[j] == before[j];
          }
        }
      } else if parse(hops[n]).Some? {
        assert Decides(parse, networks, hops, n);
        forall i | Decides(parse, networks, hops, i) ensures i == n {
          if i < n {
            assert TrustedHop(parse, networks, hops[n]);
          }
        }
      }
    }
  }

  /** What a caller writes to the left of the point where the walk stops cannot change the result. */
  lemma {:induction false} PrependedHopsAreIgnored<Ip(!new)>(parse: Parser<Ip>, networks: seq<Ip -> bool>,
                                                             extra: seq<string>, hops: seq<string>, peer: Ip)
    requires exists i :: 0 <= i < |hops| && !TrustedHop(parse, networks, hops[i])
    ensures WalkBack(parse, networks, extra + hops, peer) == WalkBack(parse, networks, hops, peer)
  {
    var n := |hops| - 1;
    assert (extra + hops)[|extra + hops| - 1] == hops[n];
    if TrustedHop(parse, networks, hops[n]) {
      var i :| 0 <= i < |hops| && !TrustedHop(parse, networks, hops[i]);
      assert hops[..n][i] == hops[i];
      PrependedHopsAreIgnored(parse, networks, extra, hops[..n], peer);
      assert (extra + hops)[..|extra + hops| - 1] == extra + hops[..n];
    }
  }

  /** The condition above is needed: when every hop is a trusted proxy the walk reaches whatever
      parseable hop is put in front. */
  lemma {:induction false} AllTrustedReachesTheLeft<Ip(!new)>(parse: Parser<Ip>, networks: seq<Ip -> bool>,
                                                              hop: string, hops: seq<string>, peer: Ip)
    requires forall i :: 0 <= i < |hops| ==> TrustedHop(parse, networks, hops[i])
    requires parse(hop).Some?
    ensures WalkBack(parse, networks, [hop] + hops, peer) == parse(hop).value
  {
    if hops == [] {
      assert [hop] + hops == [hop];
    } else {
      var n := |hops| - 1;
      AllTrustedReachesTheLeft(parse, networks, hop, hops[..n], peer);
      assert ([hop] + hops)[..n + 1] == [hop] + hops[..n];
    }
  }

  lemma HopsCons(line: string, lines: seq<string>)
    ensures Hops([line] + lines) == Split(line, ',') + Hops(lines)
  {
    hide Split;
    assert ([line] + lines)[1..] == lines;
  }

  lemma {:induction false} HopsConcat(a: seq<string>, b: seq<string>)
    ensures Hops(a + b) == Hops(a) + Hops(b)
  {
    if a == [] {
      assert a + b == b;
    } else {
      HopsConcat(a[1..], b);
      HopsPrepend(a[0], a[1..], b);
      assert a == [a[0]] + a[1..];
    }
  }

  lemma HopsPrepend(line: string, rest: seq<string>, b: seq<string>)
    requires Hops(rest + b) == Hops(rest) + Hops(b)
    ensures Hops(([line] + rest) + b) == Hops([line] + rest) + Hops(b)
  {
    HopsCons(line, rest + b);
    HopsCons(line, rest);
    hide Hops, Split;
    assert ([line] + rest) + b == [line] + (rest + b);
    var head := Split(line, ',');
    assert head + (Hops(rest) + Hops(b)) == (head + Hops(rest)) + Hops(b);
  }

  /** Joining two neighbouring header lines with a comma, or splitting one there, changes no hop. */
  lemma JoinedLinesAreTheSame(before: seq<string>, a: string, b: string, after: seq<string>)
    ensures Hops(before + [a, b] + after) == Hops(before + [a + "," + b] + after)
  {
    var joined := a + "," + b;
    HopsConcat(before + [a, b], after);
    HopsConcat(before, [a, b]);
    HopsConcat(before + [joined], after);
    HopsConcat(before, [joined]);
    SplitJoined(a, b, ',');
    assert [a, b][1..] == [b] && [b][1..] == [] && [joined][1..] == [];
    assert a + [','] + b == joined;
    assert Hops([b]) == Split(b, ',');
    assert Hops([joined]) == Split(joined, ',');
  }
}
