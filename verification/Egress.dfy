/** The TC egress program: it encapsulates a pod's IPv4 packet towards the SCION border router. */
module Egress {
  import opened Options
  import opened Bytes
  import opened Layout
  import opened ScionMac
  import opened Codec
  import opened Routing

  // ---------------------------------------------------------------------------
  // What the program makes of a frame
  // ---------------------------------------------------------------------------

  /** The frame is IPv4 and holds the header its own IHL announces. */
  predicate IsIPv4(f: seq<byte>) {
    && |f| >= ETH_LEN + IP_LEN
    && f[12..14] == ETH_P_IP
    && ETH_LEN + Ihl(f[ETH_LEN]) * 4 <= |f|
  }

  function SourceOf(f: seq<byte>): IPv4
    requires IsIPv4(f)
  {
    f[26..30]
  }

  /** The path the control plane chose for the frame, if it is an IPv4 frame of a known pod. */
  function ChosenPath(f: seq<byte>, e: Endian, m: Maps): Option<PathEntry> {
    if IsIPv4(f) then Select(e, m, SourceOf(f)) else None
  }

  function EncapLen(p: PathEntry): (n: nat)
    ensures n >= BEFORE_PATH + EXT_LEN
  {
    BEFORE_PATH + p.pathLen + EXT_LEN
  }

  /** The outer IPv4 header (section 3.1 of RFC 791): version 4, IHL 5, TTL 64, UDP, a zero checksum
      and the next hop as destination; the source address is left as it was. */
  function OuterIP(total: nat, room: seq<byte>, p: PathEntry): (r: seq<byte>)
    requires |room| >= IP_LEN
    ensures |r| == IP_LEN
  {
    [0x45, 0] + Be16(total) + [0, 0, 0, 0, 64, IPPROTO_UDP, 0, 0] + room[12..16] + p.nextHopIP
  }

  function OuterUDP(total: nat): (r: seq<byte>)
    ensures |r| == UDP_LEN
  {
    Be16(SCION_UDP_PORT) + Be16(SCION_UDP_PORT) + Be16(total) + [0, 0]
  }

  /** The headers in front of the inner packet, all but the MAC. */
  function Headers(f: seq<byte>, p: PathEntry, room: seq<byte>): (r: seq<byte>)
    requires IsIPv4(f) && p.pathLen <= MAX_PATH_LEN && |room| == EncapLen(p)
    ensures |r| == EncapLen(p)
  {
    var total := |f| - ETH_LEN + EncapLen(p);
    OuterIP(total, room, p) + OuterUDP(total - IP_LEN)
    + room[28..64] + p.hopFields[..p.pathLen] + room[64 + p.pathLen..]
  }

  /** Next hop and own MAC address, the headers, and the inner packet as it was. */
  function Encapsulated(f: seq<byte>, p: PathEntry, room: seq<byte>): (r: seq<byte>)
    requires IsIPv4(f) && p.pathLen <= MAX_PATH_LEN && |room| == EncapLen(p)
    ensures |r| == |f| + EncapLen(p)
  {
    p.nextHopMAC + f[6..12] + ETH_P_IP + Headers(f, p, room) + f[ETH_LEN..]
  }

  /** The offset of the path meta header, the first info field, and hop field 0 behind the info
      fields the frame itself announces. */
  const META_AT := ETH_LEN + BEFORE_PATH
  const INFO_AT := META_AT + META_LEN

  function HopAt(g: seq<byte>): nat
    requires |g| > META_AT + NUM_INF_AT
  {
    INFO_AT + g[META_AT + NUM_INF_AT] * INFO_LEN
  }

  /** The MAC of hop field 0, written into the frame. */
  function Stamp(g: seq<byte>, p: PathEntry, f: MacFunction): (Verdict, seq<byte>)
    requires |g| >= INFO_AT + INFO_LEN
  {
    var at := HopAt(g);
    if at + HOP_LEN > |g| then (Trap, g)
    else
      var mac := f(p.macKey, Field(g, INFO_AT, INFO_LEN), WithoutMac(Field(g, at, HOP_LEN)));
      if mac.None? then (Drop, g) else (Pass, Overwrite(g, at + MAC_AT, mac.value))
  }

  /** What the kernel does when asked for room: refuse, or open it with some content. */
  datatype Grant = Refused | Granted(fill: nat -> byte)

  function RoomOf(g: Grant, n: nat): seq<byte>
    requires g.Granted?
  {
    seq(n, i requires 0 <= i => g.fill(i))
  }

  /** The whole program as a function of the frame. */
  function Egressed(f: seq<byte>, path: Option<PathEntry>, mac: MacFunction, grant: Grant): (Verdict, seq<byte>)
    requires path.Some? ==> IsIPv4(f)
  {
    if path.None? then (Pass, f)
    else if path.value.pathLen > MAX_PATH_LEN || grant.Refused? then (Drop, f)
    else Stamp(Encapsulated(f, path.value, RoomOf(grant, EncapLen(path.value))), path.value, mac)
  }

  // ---------------------------------------------------------------------------
  // The program
  // ---------------------------------------------------------------------------

  class Skb {
    var data: array<byte>

    function Bytes(): seq<byte>
      reads this, data
    {
      data[..]
    }

    constructor (frame: seq<byte>)
      ensures fresh(data) && Bytes() == frame
    {
      var d := new byte[|frame|](i requires 0 <= i < |frame| => frame[i]);
      data := d;
      new;
      assert data[..] == frame;
    }

    /** bpf_skb_adjust_room with BPF_ADJ_ROOM_MAC: opens `n` bytes behind the Ethernet header. */
    method AdjustRoom(n: nat, grant: Grant) returns (ok: bool)
      requires data.Length >= ETH_LEN
      modifies this
      ensures ok == grant.Granted?
      ensures !ok ==> data == old(data)
      ensures ok ==> fresh(data)
                     && Bytes() == old(Bytes())[..ETH_LEN] + RoomOf(grant, n) + old(Bytes())[ETH_LEN..]
    {
      if grant.Refused? {
        return false;
      }
      var f := data[..];
      var g := f[..ETH_LEN] + RoomOf(grant, n) + f[ETH_LEN..];
      var d := new byte[|g|](i requires 0 <= i < |g| => g[i]);
      assert d[..] == g;
      data := d;
      ok := true;
    }

    method Store(at: nat, b: seq<byte>)
      requires at + |b| <= data.Length
      modifies data
      ensures Bytes() == Overwrite(old(Bytes()), at, b)
    {
      for i := 0 to |b|
        invariant data[..at] == old(data[..at]) && data[at + |b|..] == old(data[at + |b|..])
        invariant data[at..at + i] == b[..i]
      {
        data[at + i] := b[i];
      }
      assert data[..] == data[..at] + data[at..at + |b|] + data[at + |b|..];
    }
  }

  lemma OverwriteMiddle(a: seq<byte>, b: seq<byte>, c: seq<byte>, x: seq<byte>)
    requires |b| == |x|
    ensures Overwrite(a + b + c, |a|, x) == a + x + c
  {
  }

  /** parse_eth, parse_ipv4 and the two checks between them. */
  method Parse(skb: Skb) returns (ok: bool)
    ensures ok == IsIPv4(skb.Bytes())
  {
    var len := skb.data.Length;
    var off := 0;
    off := off + ETH_LEN;
    if off > len {
      return false;
    }
    if skb.data[12] != 0x08 || skb.data[13] != 0x00 {
      assert skb.data[12..14][0] != ETH_P_IP[0] || skb.data[12..14][1] != ETH_P_IP[1];
      return false;
    }
    assert skb.data[12..14] == ETH_P_IP;
    if off + IP_LEN > len {
      return false;
    }
    off := off + Ihl(skb.data[ETH_LEN]) * 4;
    ok := off <= len;
  }

  /** The stretch `b` of the packet, between `a` and `c`, is overwritten with `x`. */
  method Replace(skb: Skb, x: seq<byte>, at: nat, ghost a: seq<byte>, ghost b: seq<byte>, ghost c: seq<byte>)
    requires skb.Bytes() == a + b + c && |b| == |x| && at == |a|
    modifies skb.data
    ensures skb.Bytes() == a + x + c
  {
    OverwriteMiddle(a, b, c, x);
    skb.Store(at, x);
  }

  /** Next hop's MAC address and the protocol; the source MAC address stays. */
  method WriteEthernet(skb: Skb, nextHopMAC: seq<byte>, ghost eth: seq<byte>, ghost rest: seq<byte>)
    requires |eth| == ETH_LEN && |nextHopMAC| == 6 && skb.Bytes() == eth + rest
    modifies skb.data
    ensures skb.Bytes() == nextHopMAC + eth[6..12] + ETH_P_IP + rest
  {
    assert eth + rest == [] + eth[..6] + (eth[6..] + rest);
    Replace(skb, nextHopMAC, 0, [], eth[..6], eth[6..] + rest);
    assert [] + nextHopMAC + (eth[6..] + rest) == (nextHopMAC + eth[6..12]) + eth[12..] + rest;
    Replace(skb, ETH_P_IP, 12, nextHopMAC + eth[6..12], eth[12..], rest);
  }

  method WriteOuterIP(skb: Skb, total: nat, p: PathEntry, ghost eth: seq<byte>, ghost room: seq<byte>,
                      ghost rest: seq<byte>)
    requires |eth| == ETH_LEN && |room| == IP_LEN && skb.Bytes() == eth + room + rest
    modifies skb.data
    ensures skb.Bytes() == eth + OuterIP(total, room, p) + rest
  {
    var ip := [0x45, 0] + Be16(total) + [0, 0, 0, 0, 64, IPPROTO_UDP, 0, 0];
    assert eth + room + rest == eth + room[..12] + (room[12..] + rest);
    Replace(skb, ip, ETH_LEN, eth, room[..12], room[12..] + rest);
    assert eth + ip + (room[12..] + rest) == (eth + ip + room[12..16]) + room[16..] + rest;
    Replace(skb, p.nextHopIP, ETH_LEN + 16, eth + ip + room[12..16], room[16..], rest);
    assert (eth + ip + room[12..16]) + p.nextHopIP == eth + OuterIP(total, room, p);
  }

  /** The outer UDP header, and behind the common and address headers the path as the control plane
      serialised it. */
  method WriteTransportAndPath(skb: Skb, total: nat, p: PathEntry, ghost front: seq<byte>, ghost room: seq<byte>,
                               ghost inner: seq<byte>)
    requires p.pathLen <= MAX_PATH_LEN && |front| == ETH_LEN + IP_LEN && |room| == EncapLen(p) - IP_LEN
    requires skb.Bytes() == front + room + inner
    modifies skb.data
    ensures skb.Bytes() == front + (OuterUDP(total) + room[8..44] + p.hopFields[..p.pathLen] + room[44 + p.pathLen..])
                           + inner
  {
    var path := p.hopFields[..p.pathLen];
    assert front + room + inner == front + room[..8] + (room[8..] + inner);
    Replace(skb, OuterUDP(total), ETH_LEN + IP_LEN, front, room[..8], room[8..] + inner);
    ghost var tail := room[44 + p.pathLen..] + inner;
    assert front + OuterUDP(total) + (room[8..] + inner)
        == (front + OuterUDP(total) + room[8..44]) + room[44..44 + p.pathLen] + tail;
    Replace(skb, path, META_AT, front + OuterUDP(total) + room[8..44], room[44..44 + p.pathLen], tail);
  }

  /** write_scion_headers, up to the MAC: header by header into the opened room. */
  method WriteHeaders(skb: Skb, p: PathEntry, ghost f: seq<byte>, ghost room: seq<byte>)
    requires IsIPv4(f) && p.pathLen <= MAX_PATH_LEN && |room| == EncapLen(p)
    requires skb.Bytes() == f[..ETH_LEN] + room + f[ETH_LEN..]
    modifies skb.data
    ensures skb.Bytes() == Encapsulated(f, p, room)
  {
    var total := skb.data.Length - ETH_LEN;
    ghost var inner := f[ETH_LEN..];
    ghost var ip, rest := room[..IP_LEN], room[IP_LEN..];
    ghost var eth := p.nextHopMAC + f[6..12] + ETH_P_IP;
    assert f[..ETH_LEN] + room + inner == f[..ETH_LEN] + (room + inner);
    WriteEthernet(skb, p.nextHopMAC, f[..ETH_LEN], room + inner);
    assert f[..ETH_LEN][6..12] == f[6..12];
    assert eth + (room + inner) == eth + ip + (rest + inner);
    WriteOuterIP(skb, total, p, eth, ip, rest + inner);
    assert OuterIP(total, ip, p) == OuterIP(total, room, p);
    ghost var front := eth + OuterIP(total, room, p);
    assert front + (rest + inner) == front + rest + inner;
    WriteTransportAndPath(skb, total - IP_LEN, p, front, rest, inner);
    HeadersByParts(f, p, room);
  }

  lemma HeadersByParts(f: seq<byte>, p: PathEntry, room: seq<byte>)
    requires IsIPv4(f) && p.pathLen <= MAX_PATH_LEN && |room| == EncapLen(p)
    ensures var total := |f| - ETH_LEN + EncapLen(p);
            var eth := p.nextHopMAC + f[6..12] + ETH_P_IP;
            var rest := room[IP_LEN..];
            eth + OuterIP(total, room, p)
            + (OuterUDP(total - IP_LEN) + rest[8..44] + p.hopFields[..p.pathLen] + rest[44 + p.pathLen..])
            + f[ETH_LEN..]
            == Encapsulated(f, p, room)
  {
    var total := |f| - ETH_LEN + EncapLen(p);
    var rest := room[IP_LEN..];
    assert rest[8..44] == room[28..64] && rest[44 + p.pathLen..] == room[64 + p.pathLen..];
    assert OuterIP(total, room, p)
           + (OuterUDP(total - IP_LEN) + rest[8..44] + p.hopFields[..p.pathLen] + rest[44 + p.pathLen..])
        == Headers(f, p, room);
  }

  /** The end of write_scion_headers: find hop field 0 through the info field count in the frame and
      compute its MAC in place. */
  method StampHop(skb: Skb, p: PathEntry, mac: MacFunction) returns (verdict: Verdict)
    requires skb.data.Length >= INFO_AT + INFO_LEN
    modifies skb.data
    ensures (verdict, skb.Bytes()) == Stamp(old(skb.Bytes()), p, mac)
  {
    var inf := skb.data[INFO_AT..INFO_AT + INFO_LEN];
    var at := INFO_AT + skb.data[META_AT + NUM_INF_AT] * INFO_LEN;
    if at + HOP_LEN > skb.data.Length {
      return Trap;
    }
    assert inf == Field(skb.Bytes(), INFO_AT, INFO_LEN);
    assert skb.data[at..at + HOP_LEN] == Field(skb.Bytes(), at, HOP_LEN);
    var status := CalculateScionMac(mac, p.macKey, inf, skb.data[at..at + HOP_LEN], skb.data, at + MAC_AT);
    verdict := if status < 0 then Drop else Pass;
  }

  /** tc_egress. */
  method TcEgress(skb: Skb, loader: Loader, mac: MacFunction, grant: Grant) returns (verdict: Verdict)
    modifies skb, skb.data
    ensures (verdict, skb.Bytes())
         == Egressed(old(skb.Bytes()), ChosenPath(old(skb.Bytes()), loader.endian, old(loader.TcMaps())), mac, grant)
    ensures var f := old(skb.Bytes());
            |f| >= 34 && Select(loader.endian, old(loader.TcMaps()), f[26..30]).None?
            ==> verdict == Pass && skb.Bytes() == f
  {
    ghost var f := skb.Bytes();
    var ok := Parse(skb);
    if !ok {
      return Pass;
    }
    var src := skb.data[26..30];
    assert src == SourceOf(f);
    var key := Load32(loader.endian, src);
    if key !in loader.tcPodPolicyMap {
      return Pass;
    }
    var id := loader.tcPodPolicyMap[key];
    if id !in loader.tcScionPathCache || |loader.tcScionPathCache[id]| != ENTRY_LEN {
      return Pass;
    }
    var path := View(loader.endian, loader.tcScionPathCache[id]);
    if path.pathLen > MAX_PATH_LEN {
      return Drop;
    }
    var granted := skb.AdjustRoom(EncapLen(path), grant);
    if !granted {
      return Drop;
    }
    WriteHeaders(skb, path, f, RoomOf(grant, EncapLen(path)));
    verdict := StampHop(skb, path, mac);
  }
}
