/** The search for a free pair of recording ports. */
module Ports {
  import opened Common

  newtype u16 = x: int | 0 <= x < 0x1_0000

  datatype PortRange = PortRange(start: u16, end: u16)

  /** A port that the search tries. */
  predicate Candidate(r: PortRange, port: u16) {
    r.start <= port < r.end && (port as int - r.start as int) % 2 == 0
  }

  /** What a search finds when it sees the ports of `free` as free: the least such candidate. */
  ghost predicate Found(r: PortRange, free: u16 -> bool, port: u16) {
    Candidate(r, port) && free(port) && forall other: u16 :: Candidate(r, other) && free(other) ==> port <= other
  }

  /** The least free port `start + 2k` below the end of the range, or an error when all are busy. */
  method FreePort(r: PortRange, free: u16 -> bool) returns (port: Result<u16, string>)
    ensures port.Success? ==> Found(r, free, port.value)
    ensures port.Failure? <==> forall other: u16 :: Candidate(r, other) ==> !free(other)
  {
    var next := r.start as int;
    while next < r.end as int
      invariant r.start as int <= next && (next - r.start as int) % 2 == 0
      invariant forall other: u16 :: Candidate(r, other) && (other as int) < next ==> !free(other)
    {
      if free(next as u16) {
        return Success(next as u16);
      }
      next := next + 2;
    }
    port := Failure("No free ports available for recording");
  }

  /** RTP on the found port, RTCP on the one after it. */
  function RtcpPort(r: PortRange, port: u16): (rtcp: u16)
    requires Candidate(r, port)
    ensures port < rtcp <= r.end
  {
    port + 1
  }

  predicate Uses(r: PortRange, port: u16, used: u16)
    requires Candidate(r, port)
  {
    used == port || used == RtcpPort(r, port)
  }

  /** Two recordings on different ports of one range share no port. */
  lemma OneRangeNeverShares(r: PortRange, a: u16, b: u16, used: u16)
    requires Candidate(r, a) && Candidate(r, b)
    requires Uses(r, a, used) && Uses(r, b, used)
    ensures a == b
  {
  }

  /** A search over `r` and one over `s`, each seeing some ports as free, find ports whose pairs overlap. */
  ghost predicate Shares(r: PortRange, s: PortRange) {
    exists free: u16 -> bool, later: u16 -> bool, a: u16, b: u16, used: u16 ::
      Found(r, free, a) && Found(s, later, b) && Uses(r, a, used) && Uses(s, b, used)
  }

  /** Searches over disjoint ranges can find pairs that share a port in one case: the second range
      starts where the first ends, and the first has an odd number of ports, so that its last RTCP
      port is the start of the second. */
  lemma DisjointRangesShareIff(r: PortRange, s: PortRange)
    requires r.end <= s.start
    ensures Shares(r, s) <==>
            r.start < r.end == s.start < s.end && (r.end as int - r.start as int) % 2 == 1
  {
    if Shares(r, s) {
      var free: u16 -> bool, later: u16 -> bool, a: u16, b: u16, used: u16 :|
        Found(r, free, a) && Found(s, later, b) && Uses(r, a, used) && Uses(s, b, used);
      SharedPortIsBoundary(r, s, a, b, used);
    }
    hide Shares;
    if r.start < r.end == s.start < s.end && (r.end as int - r.start as int) % 2 == 1 {
      var last := r.end - 1;
      OnlyFree(r, last);
      OnlyFree(s, s.start);
      SharedPort(r, s, p => p == last, p => p == s.start, last, s.start, s.start);
    }
  }

  lemma SharedPort(r: PortRange, s: PortRange, free: u16 -> bool, later: u16 -> bool, a: u16, b: u16, used: u16)
    requires Found(r, free, a) && Found(s, later, b) && Uses(r, a, used) && Uses(s, b, used)
    ensures Shares(r, s)
  {
  }

  lemma SharedPortIsBoundary(r: PortRange, s: PortRange, a: u16, b: u16, used: u16)
    requires r.end <= s.start && Candidate(r, a) && Candidate(s, b) && Uses(r, a, used) && Uses(s, b, used)
    ensures r.start < r.end == s.start < s.end && (r.end as int - r.start as int) % 2 == 1
  {
    assert used == b == s.start && a as int + 1 == r.end as int;
  }

  /** When a single candidate is free the search finds it. */
  lemma OnlyFree(r: PortRange, port: u16)
    requires Candidate(r, port)
    ensures Found(r, p => p == port, port)
  {
  }

  /** Two searches over adjacent ranges: of the first range only the last candidate is free, and the
      second search takes the port that is the first's RTCP port. */
  lemma AdjacentRangesCanShare()
    ensures var r, s := PortRange(50000, 55001), PortRange(55001, 60000);
            Found(r, p => p == 55000, 55000) && Found(s, p => true, 55001) && RtcpPort(r, 55000) == 55001
    ensures Shares(PortRange(50000, 55001), PortRange(55001, 60000))
  {
    OnlyFree(PortRange(50000, 55001), 55000);
    DisjointRangesShareIff(PortRange(50000, 55001), PortRange(55001, 60000));
  }

  /** The search finds a port whose RTCP port is the exclusive end of the range. */
  ghost predicate ReachesEnd(r: PortRange) {
    exists free: u16 -> bool, port: u16 :: Found(r, free, port) && RtcpPort(r, port) == r.end
  }

  /** It can do so exactly when the range has an odd number of ports. */
  lemma RtcpPortIsEndIff(r: PortRange)
    ensures ReachesEnd(r) <==> r.start < r.end && (r.end as int - r.start as int) % 2 == 1
  {
    if ReachesEnd(r) {
      var free: u16 -> bool, port: u16 :| Found(r, free, port) && RtcpPort(r, port) == r.end;
      assert port as int + 1 == r.end as int;
    }
    hide ReachesEnd;
    if r.start < r.end && (r.end as int - r.start as int) % 2 == 1 {
      var last := r.end - 1;
      OnlyFree(r, last);
      LastPort(r, p => p == last, last);
    }
  }

  lemma LastPort(r: PortRange, free: u16 -> bool, port: u16)
    requires Found(r, free, port) && RtcpPort(r, port) == r.end
    ensures ReachesEnd(r)
  {
  }

  /** With an even start every pair is an even RTP port and the odd RTCP port after it, as section 11
      of RFC 3550 asks, and an even start is necessary for that. */
  lemma PairingNeedsEvenStart(r: PortRange)
    requires r.start < r.end
    ensures (forall port: u16 :: Candidate(r, port) ==> port as int % 2 == 0 && RtcpPort(r, port) as int % 2 == 1)
            <==> r.start as int % 2 == 0
  {
    assert Candidate(r, r.start);
    if r.start as int % 2 == 0 {
      forall port: u16 | Candidate(r, port) ensures port as int % 2 == 0 && RtcpPort(r, port) as int % 2 == 1 {
        assert port as int == (port as int - r.start as int) + r.start as int;
      }
    }
  }
}
