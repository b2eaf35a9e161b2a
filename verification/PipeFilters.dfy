/**
 The connection filters.  Stateless filters are values; a FirstWinsFilter keeps its anchor in
 a store under its own id, so that the same filter object may occur in several composites.
 */
module PipeFilters {
  import opened Options
  import opened Cidr

  type V4 = a: Address | |a| == 4 witness [0, 0, 0, 0]
  type V6 = a: Address | |a| == 16 witness [0, 0, 0, 0, 0, 0, 0, 0, 0, 0, 0, 0, 0, 0, 0, 0]

  datatype SockAddr = Inet(v4: V4, port4: nat) | Inet6(v6: V6, port6: nat) | NonIp

  /** PipeFilterInfo, as far as filters look at it. */
  datatype Info = Info(peer: SockAddr, pid: int)

  datatype Mode = Allowing | Denying

  datatype Entry4 = Entry4(net: V4, len: nat)
  datatype Entry6 = Entry6(net: V6, len: nat)

  // ── Address helpers ────────────────────────────────────────────────────

  /** addrs_equal_ip: non-IP on either side counts as equal. */
  predicate AddrsEqualIp(a: SockAddr, b: SockAddr) {
    match (a, b)
    case (NonIp, _) => true
    case (_, NonIp) => true
    case (Inet(x, _), Inet(y, _)) => x == y
    case (Inet6(x, _), Inet6(y, _)) => x == y
    case _ => false
  }

  /** sockaddr_port: the raw port field, 0 for non-IP transports. */
  function SockaddrPort(a: SockAddr): nat {
    match a
    case Inet(_, p) => p
    case Inet6(_, p) => p
    case NonIp => 0
  }

  /** The same address, byte for byte. */
  predicate SameAddress(a: SockAddr, b: SockAddr) {
    || (a.Inet? && b.Inet? && forall i :: 0 <= i < 4 ==> a.v4[i] == b.v4[i])
    || (a.Inet6? && b.Inet6? && forall i :: 0 <= i < 16 ==> a.v6[i] == b.v6[i])
  }

  /** The raw port field has this value; a non-IP peer counts as 0. */
  predicate PortIs(a: SockAddr, n: nat) {
    (a.Inet? ==> a.port4 == n) && (a.Inet6? ==> a.port6 == n) && (a.NonIp? ==> n == 0)
  }

  predicate SamePort(a: SockAddr, b: SockAddr) {
    && (a.Inet? ==> PortIs(b, a.port4)) && (a.Inet6? ==> PortIs(b, a.port6)) && (a.NonIp? ==> PortIs(b, 0))
  }

  /** addrs_equal_ip compares all bytes of two IP addresses and nothing else. */
  lemma AddrsEqualIpExactly(a: SockAddr, b: SockAddr)
    ensures AddrsEqualIp(a, b) <==> a.NonIp? || b.NonIp? || SameAddress(a, b)
  {
    if a.Inet? && b.Inet? {
      assert a.v4 == b.v4 <==> forall i :: 0 <= i < 4 ==> a.v4[i] == b.v4[i];
    }
    if a.Inet6? && b.Inet6? {
      assert a.v6 == b.v6 <==> forall i :: 0 <= i < 16 ==> a.v6[i] == b.v6[i];
    }
  }

  lemma SockaddrPortExactly(a: SockAddr, b: SockAddr, n: nat)
    ensures SockaddrPort(a) == n <==> PortIs(a, n)
    ensures SockaddrPort(a) == SockaddrPort(b) <==> SamePort(a, b)
  {
  }

  function Verdict(mode: Mode, matched: bool): bool {
    if mode == Allowing then matched else !matched
  }

  // ── IpFilter and PidFilter ─────────────────────────────────────────────

  predicate InNet(a: Address, net: Address, len: nat)
    requires |a| == |net|
  {
    len <= 8 * |a| && TopBits(a, len) == TopBits(net, len)
  }

  /** A prefix length is at most the width of the address. */
  predicate EntriesOk(v4: seq<Entry4>, v6: seq<Entry6>) {
    (forall i :: 0 <= i < |v4| ==> v4[i].len <= 32) && (forall i :: 0 <= i < |v6| ==> v6[i].len <= 128)
  }

  /** Some listed network contains the peer. */
  predicate Listed(v4: seq<Entry4>, v6: seq<Entry6>, peer: SockAddr) {
    match peer
    case Inet(a, _) => exists i :: 0 <= i < |v4| && InNet(a, v4[i].net, v4[i].len)
    case Inet6(a, _) => exists i :: 0 <= i < |v6| && InNet(a, v6[i].net, v6[i].len)
    case NonIp => false
  }

  /** IpFilter::allow: the lists are searched in order, non-IP peers pass. */
  method IpAllows(mode: Mode, v4: seq<Entry4>, v6: seq<Entry6>, peer: SockAddr) returns (r: bool)
    requires EntriesOk(v4, v6)
    ensures mode == Allowing ==> (r <==> peer.NonIp? || Listed(v4, v6, peer))
    ensures mode == Denying ==> (r <==> peer.NonIp? || !Listed(v4, v6, peer))
    ensures v4 == [] && v6 == [] ==> r == (peer.NonIp? || mode == Denying)
  {
    if peer.NonIp? {
      return true;
    }
    var matched := false;
    if peer.Inet? {
      for i := 0 to |v4|
        invariant !matched && (forall j :: 0 <= j < i ==> !InNet(peer.v4, v4[j].net, v4[j].len))
      {
        matched := Match(peer.v4, v4[i].net, v4[i].len);
        if matched {
          break;
        }
      }
    } else {
      for i := 0 to |v6|
        invariant !matched && (forall j :: 0 <= j < i ==> !InNet(peer.v6, v6[j].net, v6[j].len))
      {
        matched := Match(peer.v6, v6[i].net, v6[i].len);
        if matched {
          break;
        }
      }
    }
    return Verdict(mode, matched);
  }

  /** PidFilter::allow: peers without a process id pass. */
  method PidAllows(mode: Mode, pids: seq<int>, pid: int) returns (r: bool)
    ensures mode == Allowing ==> (r <==> pid == -1 || pid in pids)
    ensures mode == Denying ==> (r <==> pid == -1 || pid !in pids)
    ensures pids == [] ==> r == (pid == -1 || mode == Denying)
  {
    if pid == -1 {
      return true;
    }
    var matched := false;
    for i := 0 to |pids|
      invariant !matched && pid !in pids[..i]
    {
      if pid == pids[i] {
        matched := true;
        break;
      }
    }
    return Verdict(mode, matched);
  }

  datatype PortRange = PortRange(lo: nat, hi: nat)

  /** Some range contains the raw port number, whatever its byte order. */
  predicate InRanges(ranges: seq<PortRange>, port: nat) {
    exists i :: 0 <= i < |ranges| && ranges[i].lo <= port <= ranges[i].hi
  }

  /** PortFilter::allow: port 0 passes. */
  method PortAllows(mode: Mode, ranges: seq<PortRange>, peer: SockAddr) returns (r: bool)
    ensures PortIs(peer, 0) ==> r
    ensures forall n :: PortIs(peer, n) && n != 0 && mode == Allowing ==> (r <==> InRanges(ranges, n))
    ensures forall n :: PortIs(peer, n) && n != 0 && mode == Denying ==> (r <==> !InRanges(ranges, n))
  {
    var port := SockaddrPort(peer);
    SockaddrPortExactly(peer, peer, port);
    if port == 0 {
      return true;
    }
    var matched := false;
    for i := 0 to |ranges|
      invariant !matched && forall j :: 0 <= j < i ==> !(ranges[j].lo <= port <= ranges[j].hi)
    {
      if port >= ranges[i].lo && port <= ranges[i].hi {
        matched := true;
        break;
      }
    }
    return Verdict(mode, matched);
  }

  // ── FirstWinsFilter ────────────────────────────────────────────────────

  /** key_mask */
  datatype Keys = Keys(pid: bool, ip: bool, port: bool)

  datatype Anchor = Anchor(initialized: bool, pid: int, addr: SockAddr, port: nat)

  const NO_ANCHOR := Anchor(false, -1, NonIp, 0)

  /** Only the selected keys are stored. */
  function Anchored(keys: Keys, a: Anchor, info: Info): Anchor {
    Anchor(true,
           if keys.pid then info.pid else a.pid,
           if keys.ip then info.peer else a.addr,
           if keys.port then SockaddrPort(info.peer) else a.port)
  }

  predicate Agrees(keys: Keys, a: Anchor, info: Info) {
    && (keys.pid ==> info.pid == a.pid)
    && (keys.ip ==> AddrsEqualIp(info.peer, a.addr))
    && (keys.port ==> SockaddrPort(info.peer) == a.port)
  }

  function FirstWinsAllow(keys: Keys, a: Anchor, info: Info): (bool, Anchor) {
    if !a.initialized then (true, Anchored(keys, a, info)) else (Agrees(keys, a, info), a)
  }

  datatype Call = CallAllow(info: Info) | CallReset

  /** The pipe that holds the anchor, told from the calls alone: the first asked since the last reset. */
  function FirstSince(calls: seq<Call>): Option<Info> {
    if calls == [] then None
    else match calls[|calls| - 1]
      case CallReset => None
      case CallAllow(info) =>
        var before := FirstSince(calls[..|calls| - 1]);
        if before.Some? then before else Some(info)
  }

  /** Two pipes agree on all selected keys. */
  predicate SameKeys(keys: Keys, info: Info, first: Info) {
    && (keys.pid ==> info.pid == first.pid)
    && (keys.ip ==> info.peer.NonIp? || first.peer.NonIp? || SameAddress(info.peer, first.peer))
    && (keys.port ==> SamePort(info.peer, first.peer))
  }

  /** The stored values decide as the anchoring pipe itself would. */
  lemma AgreesExactly(keys: Keys, a: Anchor, first: Info, info: Info)
    requires Remembers(keys, a, Some(first))
    ensures Agrees(keys, a, info) <==> SameKeys(keys, info, first)
  {
    AddrsEqualIpExactly(info.peer, first.peer);
    SockaddrPortExactly(info.peer, first.peer, 0);
  }

  /** The stored values are those of the anchoring pipe. */
  predicate Remembers(keys: Keys, a: Anchor, first: Option<Info>) {
    && (a.initialized <==> first.Some?)
    && (first.Some? ==>
          && (keys.pid ==> a.pid == first.value.pid)
          && (keys.ip ==> a.addr == first.value.peer)
          && (keys.port ==> a.port == SockaddrPort(first.value.peer)))
  }

  class FirstWinsFilter {
    const keys: Keys
    var initialized: bool
    var firstPid: int
    var firstAddr: SockAddr
    var firstPort: nat
    ghost var calls: seq<Call>

    ghost function View(): Anchor
      reads this
    {
      Anchor(initialized, firstPid, firstAddr, firstPort)
    }

    ghost predicate Valid()
      reads this
    {
      Remembers(keys, View(), FirstSince(calls))
    }

    constructor (keys: Keys)
      ensures Valid() && View() == NO_ANCHOR && this.keys == keys && calls == []
    {
      this.keys := keys;
      initialized, firstPid, firstAddr, firstPort, calls := false, -1, NonIp, 0, [];
    }

    /** Admitted: the first pipe asked since the last reset, and those that agree with it. */
    method Allow(info: Info) returns (r: bool)
      requires Valid()
      modifies this
      ensures Valid() && calls == old(calls) + [CallAllow(info)]
      ensures r <==> SameKeys(keys, info, FirstSince(calls).value)
      ensures (r, View()) == FirstWinsAllow(keys, old(View()), info)
    {
      AllowSince(calls, info);
      ghost var first := FirstSince(calls + [CallAllow(info)]).value;
      AgreesExactly(keys, if initialized then View() else Anchored(keys, View(), info), first, info);
      calls := calls + [CallAllow(info)];
      if !initialized {
        if keys.pid {
          firstPid := info.pid;
        }
        if keys.ip {
          firstAddr := info.peer;
        }
        if keys.port {
          firstPort := SockaddrPort(info.peer);
        }
        initialized := true;
        return true;
      }
      if keys.pid && info.pid != firstPid {
        return false;
      }
      if keys.ip && !AddrsEqualIp(info.peer, firstAddr) {
        return false;
      }
      if keys.port && SockaddrPort(info.peer) != firstPort {
        return false;
      }
      return true;
    }

    /** The anchor is released: whichever pipe is asked next becomes the new first. */
    method Reset()
      requires Valid()
      modifies this
      ensures Valid() && calls == old(calls) + [CallReset]
      ensures forall info :: FirstSince(calls + [CallAllow(info)]) == Some(info)
      ensures View() == old(View()).(initialized := false)
    {
      forall info ensures FirstSince(calls + [CallReset] + [CallAllow(info)]) == Some(info) {
        AllowSince(calls + [CallReset], info);
      }
      calls := calls + [CallReset];
      initialized := false;
    }
  }

  lemma AllowSince(calls: seq<Call>, info: Info)
    ensures FirstSince(calls + [CallAllow(info)]) == if FirstSince(calls).Some? then FirstSince(calls) else Some(info)
  {
    assert (calls + [CallAllow(info)])[..|calls|] == calls;
  }

  /** After a reset, whatever went before, the next pipe asked is the first for every later one. */
  lemma {:induction false} ResetStartsOver(calls: seq<Call>, info: Info, later: seq<Info>)
    ensures FirstSince(calls + [CallReset, CallAllow(info)] + Asked(later)) == Some(info)
  {
    var start := calls + [CallReset, CallAllow(info)];
    if later == [] {
      assert start + Asked(later) == calls + [CallReset] + [CallAllow(info)];
      AllowSince(calls + [CallReset], info);
    } else {
      var n := |later| - 1;
      ResetStartsOver(calls, info, later[..n]);
      AllowSince(start + Asked(later[..n]), later[n]);
      assert start + Asked(later) == start + Asked(later[..n]) + [CallAllow(later[n])];
    }
  }

  function Asked(infos: seq<Info>): seq<Call> {
    seq(|infos|, i requires 0 <= i < |infos| => CallAllow(infos[i]))
  }

  /** The anchor after some calls, and the pipes admitted since it was set (the anchoring one first). */
  function Calls(keys: Keys, a: Anchor, admitted: seq<Info>, calls: seq<Call>): (Anchor, seq<Info>)
    decreases calls
  {
    if calls == [] then (a, admitted)
    else match calls[0]
      case CallReset => Calls(keys, a.(initialized := false), admitted, calls[1..])
      case CallAllow(info) =>
        var (ok, a') := FirstWinsAllow(keys, a, info);
        var admitted' := if !a.initialized then [info] else if ok then admitted + [info] else admitted;
        Calls(keys, a', admitted', calls[1..])
  }

  /** Every admitted pipe agrees with the anchor, which is the first of them, on every selected key. */
  ghost predicate AllAgree(keys: Keys, admitted: seq<Info>) {
    forall i :: 0 <= i < |admitted| ==> SameKeys(keys, admitted[i], admitted[0])
  }

  ghost predicate AnchorOf(keys: Keys, a: Anchor, admitted: seq<Info>) {
    && AllAgree(keys, admitted)
    && (a.initialized ==> admitted != [] && Remembers(keys, a, Some(admitted[0])))
  }

  lemma {:induction false} CallsAgree(keys: Keys, a: Anchor, admitted: seq<Info>, calls: seq<Call>)
    requires AnchorOf(keys, a, admitted)
    ensures var (a', admitted') := Calls(keys, a, admitted, calls); AnchorOf(keys, a', admitted')
    decreases calls
  {
    if calls != [] {
      match calls[0]
      case CallReset => CallsAgree(keys, a.(initialized := false), admitted, calls[1..]);
      case CallAllow(info) =>
        var (ok, a') := FirstWinsAllow(keys, a, info);
        var admitted' := if !a.initialized then [info] else if ok then admitted + [info] else admitted;
        OneMoreAdmitted(keys, a, admitted, info);
        CallsAgree(keys, a', admitted', calls[1..]);
    }
  }

  lemma OneMoreAdmitted(keys: Keys, a: Anchor, admitted: seq<Info>, info: Info)
    requires AnchorOf(keys, a, admitted)
    ensures var (ok, a') := FirstWinsAllow(keys, a, info);
      AnchorOf(keys, a', if !a.initialized then [info] else if ok then admitted + [info] else admitted)
  {
    if a.initialized {
      AgreesExactly(keys, a, admitted[0], info);
    } else {
      AgreesExactly(keys, Anchored(keys, a, info), info, info);
    }
  }

  /**
   Over any run of allow and reset on a new filter: all pipes admitted since the last anchor
   agree with it, pairwise on process id and port, and pairwise on the IP as well when the
   anchor is an IP peer.
   */
  lemma FirstWinsAgreement(keys: Keys, calls: seq<Call>)
    ensures var admitted := Calls(keys, NO_ANCHOR, [], calls).1;
      && AllAgree(keys, admitted)
      && (forall i, j :: 0 <= i < |admitted| && 0 <= j < |admitted| ==>
            && (keys.pid ==> admitted[i].pid == admitted[j].pid)
            && (keys.port ==> SamePort(admitted[i].peer, admitted[j].peer))
            && (keys.ip && !admitted[0].peer.NonIp? ==>
                  admitted[i].peer.NonIp? || admitted[j].peer.NonIp?
                  || SameAddress(admitted[i].peer, admitted[j].peer)))
  {
    CallsAgree(keys, NO_ANCHOR, [], calls);
  }

  /**
   The condition is needed.  Under a non-IP anchor two peers with different IPs are both
   admitted if and only if they meet the other selected keys: the anchor's process id, and port
   0, which is what a non-IP anchor stores.
   */
  lemma NonIpAnchorAdmitsExactly(keys: Keys, p: Info, q: Info, r: Info)
    requires keys.ip && p.peer.NonIp? && !q.peer.NonIp? && !r.peer.NonIp? && !SameAddress(q.peer, r.peer)
    ensures Calls(keys, NO_ANCHOR, [], [CallAllow(p), CallAllow(q), CallAllow(r)]).1 == [p, q, r] <==>
      && (keys.pid ==> q.pid == p.pid && r.pid == p.pid)
      && (keys.port ==> PortIs(q.peer, 0) && PortIs(r.peer, 0))
  {
    var a := Anchored(keys, NO_ANCHOR, p);
    AgreesExactly(keys, a, p, q);
    AgreesExactly(keys, a, p, r);
    var calls := [CallAllow(p), CallAllow(q), CallAllow(r)];
    assert calls[1..] == [CallAllow(q), CallAllow(r)] && calls[1..][1..] == [CallAllow(r)] && [CallAllow(r)][1..] == [];
    var second := if Agrees(keys, a, q) then [p] + [q] else [p];
    var third := if Agrees(keys, a, r) then second + [r] else second;
    assert Calls(keys, a, second, [CallAllow(r)]) == Calls(keys, a, third, []);
    assert Calls(keys, a, [p], calls[1..]) == Calls(keys, a, second, [CallAllow(r)]);
    assert Calls(keys, NO_ANCHOR, [], calls) == Calls(keys, a, [p], calls[1..]);
  }
}
