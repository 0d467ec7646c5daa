/** Which address the wrong-PIN limiter counts under: X-Forwarded-For is read only as far as it can be trusted. */
module ClientAddress {
  import opened Prelude

  /** An entry as net.ParseIP and the list of trusted proxies see it. */
  datatype Hop = Hop(text: string, valid: bool, listed: bool)

  predicate Trusted(h: Hop) {
    h.valid && h.listed
  }

  /** The loop over the hops from right to left; None when it breaks off. */
  function Forwarded(hops: seq<Hop>): Option<string> {
    if hops == [] then None
    else
      var last := hops[|hops| - 1];
      if !last.valid then None
      else if !last.listed || |hops| == 1 then Some(last.text)
      else Forwarded(hops[..|hops| - 1])
  }

  /** rawClientIP: the TCP peer, the X-Forwarded-For hops ([] without the header) and X-Real-IP. */
  function RawClientIP(peer: Hop, hops: seq<Hop>, realIP: Option<Hop>): string {
    if !Trusted(peer) then peer.text
    else
      match Forwarded(hops)
      case Some(text) => text
      case None => if realIP.Some? && realIP.value.valid then realIP.value.text else peer.text
  }

  /** The hops are settled by k: everything to its right is a trusted proxy. */
  ghost predicate Decides(hops: seq<Hop>, k: nat) {
    k < |hops| && !Trusted(hops[k]) && forall j :: k < j < |hops| ==> Trusted(hops[j])
  }

  /** The answer is the rightmost hop that is not a trusted proxy; what stands to its left is not looked at. */
  lemma {:induction false} RightmostUntrustedDecides(hops: seq<Hop>, k: nat)
    requires Decides(hops, k)
    ensures Forwarded(hops) == if hops[k].valid then Some(hops[k].text) else None
    decreases |hops|
  {
    if k < |hops| - 1 {
      assert Trusted(hops[|hops| - 1]);
      RightmostUntrustedDecides(hops[..|hops| - 1], k);
    }
  }

  lemma {:induction false} TrustedAreSkipped(more: seq<Hop>, hops: seq<Hop>)
    requires more != [] && forall h :: h in hops ==> Trusted(h)
    ensures Forwarded(more + hops) == Forwarded(more)
    decreases |hops|
  {
    if hops == [] {
      assert more + hops == more;
    } else {
      assert Trusted(hops[|hops| - 1]);
      assert (more + hops)[..|more + hops| - 1] == more + hops[..|hops| - 1];
      TrustedAreSkipped(more, hops[..|hops| - 1]);
    }
  }

  lemma {:induction false} AllTrusted(hops: seq<Hop>)
    requires hops != [] && forall h :: h in hops ==> Trusted(h)
    ensures Forwarded(hops) == Some(hops[0].text)
  {
    assert Trusted(hops[|hops| - 1]);
    if |hops| > 1 {
      AllTrusted(hops[..|hops| - 1]);
    }
  }

  /** The hops say nothing: there are none, or the rightmost one that is no trusted proxy is no address. */
  ghost predicate Mute(hops: seq<Hop>) {
    hops == [] || exists k: nat :: Decides(hops, k) && !hops[k].valid
  }

  /**
   Who decides, in every case: the TCP peer if it is no trusted proxy, whatever the headers say; else the rightmost hop
   that is no trusted proxy, or the leftmost if all are; and if the hops say nothing, X-Real-IP if it is an address, and
   else the peer.
   */
  lemma WhoDecides(peer: Hop, hops: seq<Hop>, realIP: Option<Hop>)
    ensures !Trusted(peer) ==> RawClientIP(peer, hops, realIP) == peer.text
    ensures Trusted(peer) ==>
              && (forall k: nat :: Decides(hops, k) && hops[k].valid ==> RawClientIP(peer, hops, realIP) == hops[k].text)
              && (hops != [] && (forall h :: h in hops ==> Trusted(h)) ==> RawClientIP(peer, hops, realIP) == hops[0].text)
              && (Mute(hops) ==>
                    RawClientIP(peer, hops, realIP) ==
                    if realIP.Some? && realIP.value.valid then realIP.value.text else peer.text)
  {
    forall k: nat | Decides(hops, k)
      ensures Forwarded(hops) == if hops[k].valid then Some(hops[k].text) else None
    {
      RightmostUntrustedDecides(hops, k);
    }
    if hops != [] && forall h :: h in hops ==> Trusted(h) {
      AllTrusted(hops);
    }
  }

  /** X-Real-IP makes a difference if and only if the peer is a trusted proxy and the hops say nothing. */
  lemma RealIPMatters(peer: Hop, hops: seq<Hop>)
    ensures (exists a, b :: RawClientIP(peer, hops, a) != RawClientIP(peer, hops, b)) <==> Trusted(peer) && Mute(hops)
  {
    if Trusted(peer) && Mute(hops) {
      var other := Some(Hop(OtherAddress(peer.text), true, false));
      WhoDecides(peer, hops, None);
      WhoDecides(peer, hops, other);
      assert RawClientIP(peer, hops, None) != RawClientIP(peer, hops, other);
    } else if Trusted(peer) {
      if forall h :: h in hops ==> Trusted(h) {
        AllTrusted(hops);
      } else {
        var k := LastUntrusted(hops);
        RightmostUntrustedDecides(hops, k);
      }
    }
  }

  /** Nothing put in front of the hops changes the answer. */
  ghost predicate Settled(peer: Hop, hops: seq<Hop>, realIP: Option<Hop>) {
    forall more :: RawClientIP(peer, more + hops, realIP) == RawClientIP(peer, hops, realIP)
  }

  /** An address a client could send, from the range that section 3 of RFC 5737 sets aside. */
  function OtherAddress(address: string): (other: string)
    ensures other != address
  {
    var one, two := "192.0.2.1", "192.0.2.2";
    assert one[8] != two[8];
    if address == one then two else one
  }

  /** A client that may write what it likes in front of the header chooses the answer if and only if the request
      comes through trusted proxies alone. */
  lemma ForgedHopsAreIgnored(peer: Hop, hops: seq<Hop>, realIP: Option<Hop>)
    ensures Settled(peer, hops, realIP) <==> !Trusted(peer) || exists h :: h in hops && !Trusted(h)
  {
    if Trusted(peer) {
      if h :| h in hops && !Trusted(h) {
        var k := LastUntrusted(hops);
        RightmostUntrustedDecides(hops, k);
        forall more: seq<Hop>
          ensures RawClientIP(peer, more + hops, realIP) == RawClientIP(peer, hops, realIP)
        {
          RightmostUntrustedDecides(more + hops, |more| + k);
        }
      } else {
        var forged := Hop(OtherAddress(RawClientIP(peer, hops, realIP)), true, false);
        TrustedAreSkipped([forged], hops);
        assert RawClientIP(peer, [forged] + hops, realIP) == forged.text;
      }
    }
  }

  lemma {:induction false} LastUntrusted(hops: seq<Hop>) returns (k: nat)
    requires exists h :: h in hops && !Trusted(h)
    ensures Decides(hops, k)
  {
    k := |hops| - 1;
    if Trusted(hops[k]) {
      var front := hops[..k];
      assert hops == front + [hops[k]];
      k := LastUntrusted(front);
    }
  }
}
