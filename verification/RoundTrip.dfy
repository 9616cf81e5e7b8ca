/** The two datapath programs together, and with the control plane's maps: what egress wraps, ingress
    unwraps. */
module RoundTrip {
  import opened Options
  import opened Bytes
  import opened Layout
  import opened ScionMac
  import opened Codec
  import opened Routing
  import opened Egress
  import opened Ingress

  // ---------------------------------------------------------------------------
  // The encapsulated frame, part by part
  // ---------------------------------------------------------------------------

  /** The parts of a frame that ingress looks at, apart from the hop field. */
  ghost predicate Carries(g: seq<byte>, f: seq<byte>, p: PathEntry)
    requires |f| >= ETH_LEN && p.pathLen <= MAX_PATH_LEN
  {
    && |g| == |f| + EncapLen(p)
    && g[..12] == p.nextHopMAC + f[6..12]
    && g[12..14] == ETH_P_IP
    && g[ETH_LEN] == 0x45
    && g[23] == IPPROTO_UDP
    && g[30..34] == p.nextHopIP
    && g[36..38] == Be16(SCION_UDP_PORT)
    && (forall i | 0 <= i < META_LEN && i < p.pathLen :: g[META_AT + i] == p.hopFields[i])
    && g[ETH_LEN + EncapLen(p)..] == f[ETH_LEN..]
  }

  lemma HeaderParts(f: seq<byte>, p: PathEntry, room: seq<byte>)
    requires IsIPv4(f) && p.pathLen <= MAX_PATH_LEN && |room| == EncapLen(p)
    ensures var h := Headers(f, p, room);
            && h[0] == 0x45 && h[9] == IPPROTO_UDP && h[16..20] == p.nextHopIP
            && h[22..24] == Be16(SCION_UDP_PORT)
            && h[BEFORE_PATH..BEFORE_PATH + p.pathLen] == p.hopFields[..p.pathLen]
            && h[2..4] == Be16(|f| - ETH_LEN + EncapLen(p))
            && h[24..26] == Be16(|f| - ETH_LEN - IP_LEN + EncapLen(p))
  {
    var total := |f| - ETH_LEN + EncapLen(p);
    var h := Headers(f, p, room);
    assert h[..IP_LEN] == OuterIP(total, room, p);
    assert h[IP_LEN..IP_LEN + UDP_LEN] == OuterUDP(total - IP_LEN);
    assert h[22..24] == h[IP_LEN..IP_LEN + UDP_LEN][2..4];
    assert h[24..26] == h[IP_LEN..IP_LEN + UDP_LEN][4..6];
    assert h[2..4] == h[..IP_LEN][2..4] && h[16..20] == h[..IP_LEN][16..20];
  }

  lemma EncapsulatedCarries(f: seq<byte>, p: PathEntry, room: seq<byte>)
    requires IsIPv4(f) && p.pathLen <= MAX_PATH_LEN && |room| == EncapLen(p)
    ensures Carries(Encapsulated(f, p, room), f, p)
    ensures Encapsulated(f, p, room)[META_AT..META_AT + p.pathLen] == p.hopFields[..p.pathLen]
  {
    var g := Encapsulated(f, p, room);
    var h := Headers(f, p, room);
    HeaderParts(f, p, room);
    assert g[ETH_LEN..ETH_LEN + |h|] == h;
    assert g[ETH_LEN] == h[0] && g[23] == h[9];
    assert g[36..38] == h[22..24] && g[30..34] == h[16..20];
    assert g[META_AT..META_AT + p.pathLen] == h[BEFORE_PATH..BEFORE_PATH + p.pathLen];
    forall i | 0 <= i < META_LEN && i < p.pathLen
      ensures g[META_AT + i] == p.hopFields[i]
    {
      assert g[META_AT + i] == g[META_AT..META_AT + p.pathLen][i];
    }
  }

  /** Writing inside the path, behind its meta header, leaves all the other parts. */
  lemma OverwriteCarries(g: seq<byte>, f: seq<byte>, p: PathEntry, at: nat, b: seq<byte>)
    requires |f| >= ETH_LEN && p.pathLen <= MAX_PATH_LEN && Carries(g, f, p)
    requires INFO_AT <= at && at + |b| <= ETH_LEN + EncapLen(p)
    ensures Carries(Overwrite(g, at, b), f, p)
  {
    var h := Overwrite(g, at, b);
    assert h[..at] == g[..at];
    assert forall i | 0 <= i < at :: h[i] == g[i];
    assert h[..12] == g[..12] && h[12..14] == g[12..14] && h[30..34] == g[30..34] && h[36..38] == g[36..38];
    assert h[ETH_LEN + EncapLen(p)..] == g[ETH_LEN + EncapLen(p)..];
  }

  // ---------------------------------------------------------------------------
  // Lengths
  // ---------------------------------------------------------------------------

  lemma CarriesIsScion(g: seq<byte>, f: seq<byte>, p: PathEntry)
    requires |f| >= ETH_LEN && p.pathLen <= MAX_PATH_LEN && Carries(g, f, p)
    ensures IsScion(g) && MetaAt(g) == META_AT
    ensures p.pathLen >= META_LEN ==>
              StripLen(g) == BEFORE_PATH + PathHeaderLen(p.NumInf(), p.NumHf()) + EXT_LEN
  {
    assert UdpAt(g) == 34;
    assert g[UdpAt(g) + 2..UdpAt(g) + 4] == g[36..38];
    if p.pathLen >= META_LEN {
      assert g[META_AT + NUM_INF_AT] == p.hopFields[NUM_INF_AT];
      assert g[META_AT + NUM_HF_AT] == p.hopFields[NUM_HF_AT];
    }
  }

  /** Whatever the path length, ingress strips what egress opened exactly when it is the one that the path's
      own counts of info and hop fields imply, meta header included. */
  lemma LengthsAgreeIff(f: seq<byte>, p: PathEntry, room: seq<byte>)
    requires IsIPv4(f) && p.pathLen <= MAX_PATH_LEN && |room| == EncapLen(p)
    ensures MetaAt(Encapsulated(f, p, room)) + META_LEN <= |f| + EncapLen(p)
    ensures StripLen(Encapsulated(f, p, room)) == EncapLen(p)
       <==> p.pathLen == PathHeaderLen(p.NumInf(), p.NumHf())
  {
    EncapsulatedCarries(f, p, room);
    CarriesIsScion(Encapsulated(f, p, room), f, p);
  }

  function Be16Value(b: seq<byte>): int
    requires |b| == 2
  {
    Sum(b[1], b[0], 0, 0)
  }

  lemma LengthFields(f: seq<byte>, p: PathEntry, room: seq<byte>)
    requires IsIPv4(f) && p.pathLen <= MAX_PATH_LEN && |room| == EncapLen(p)
    ensures var g := Encapsulated(f, p, room);
            g[16..18] == Be16(|g| - ETH_LEN) && g[38..40] == Be16(|g| - ETH_LEN - IP_LEN)
  {
    var g := Encapsulated(f, p, room);
    var h := Headers(f, p, room);
    HeaderParts(f, p, room);
    assert g[ETH_LEN..ETH_LEN + |h|] == h;
    assert g[16..18] == h[2..4] && g[38..40] == h[24..26];
  }

  /** The outer length fields hold the true lengths up to 65535 bytes, and wrap around beyond. */
  lemma OuterLengths(f: seq<byte>, p: PathEntry, room: seq<byte>)
    requires IsIPv4(f) && p.pathLen <= MAX_PATH_LEN && |room| == EncapLen(p)
    ensures var g := Encapsulated(f, p, room);
            && Be16Value(g[16..18]) == (|g| - ETH_LEN) % 0x1_0000
            && Be16Value(g[38..40]) == (|g| - ETH_LEN - IP_LEN) % 0x1_0000
            && (Be16Value(g[16..18]) == |g| - ETH_LEN <==> |g| - ETH_LEN < 0x1_0000)
  {
    LengthFields(f, p, room);
    var g := Encapsulated(f, p, room);
    Be16Read(g[16..18], |g| - ETH_LEN);
    Be16Read(g[38..40], |g| - ETH_LEN - IP_LEN);
    hide *;
  }

  lemma Be16Read(b: seq<byte>, x: nat)
    requires b == Be16(x)
    ensures Be16Value(b) == x % 0x1_0000
    ensures Be16Value(b) == x <==> x < 0x1_0000
  {
    assert x == 0x100 * (x / 0x100) + x % 0x100;
    assert x / 0x100 == 0x100 * (x / 0x100 / 0x100) + (x / 0x100) % 0x100;
  }

  // ---------------------------------------------------------------------------
  // The MAC
  // ---------------------------------------------------------------------------

  /** Egress stamps hop field 0 where the entry's own info field count puts it; the write stays in the
      opened room, and out of the inner packet, exactly when the entry leaves it that much room. */
  lemma MacInRoomIff(f: seq<byte>, p: PathEntry, room: seq<byte>)
    requires IsIPv4(f) && p.pathLen <= MAX_PATH_LEN && |room| == EncapLen(p)
    ensures var g := Encapsulated(f, p, room);
            && (HopAt(g) + MAC_AT + MAC_LEN <= ETH_LEN + EncapLen(p)
                <==> META_LEN + InfoCount(p, room) * INFO_LEN + MAC_AT + MAC_LEN <= p.pathLen + EXT_LEN)
            && HopAt(g) == INFO_AT + InfoCount(p, room) * INFO_LEN
            && (forall mac: MacFunction ::
                  Stamp(g, p, mac).0 == Trap <==> HopAt(g) + HOP_LEN > |f| + EncapLen(p))
  {
    EncapsulatedPayload(f, p, room);
    var g := Encapsulated(f, p, room);
    assert g[META_AT + NUM_INF_AT] == g[META_AT..][NUM_INF_AT];
  }

  /** The number of info fields the frame announces: the entry's, or what the room held, if the path is too
      short to have one. */
  function InfoCount(p: PathEntry, room: seq<byte>): nat
    requires p.pathLen <= MAX_PATH_LEN && |room| == EncapLen(p)
  {
    if NUM_INF_AT < p.pathLen then p.NumInf() else room[BEFORE_PATH + NUM_INF_AT]
  }

  /** What the entry stores: the first info field and its hop fields. */
  function StoredInfo(p: PathEntry): seq<byte> {
    Field(p.hopFields, META_LEN, INFO_LEN)
  }

  function StoredHop(p: PathEntry, k: nat): seq<byte>
    requires p.WellFormed() && k < p.NumHf()
  {
    assert (k + 1) * HOP_LEN <= p.NumHf() * HOP_LEN;
    Field(p.hopFields, META_LEN + p.NumInf() * INFO_LEN + k * HOP_LEN, HOP_LEN)
  }

  /** What a key makes of the entry's own hop 0. */
  function FirstMac(p: PathEntry, mac: MacFunction, key: seq<byte>): Option<Mac>
    requires p.WellFormed()
  {
    mac(key, StoredInfo(p), WithoutMac(StoredHop(p, 0)))
  }

  /** All that follows the address header: the path, the extension and the inner packet. */
  function Payload(f: seq<byte>, p: PathEntry, room: seq<byte>): seq<byte>
    requires IsIPv4(f) && p.pathLen <= MAX_PATH_LEN && |room| == EncapLen(p)
  {
    p.hopFields[..p.pathLen] + Behind(f, p, room)
  }

  /** What lies behind the path: the extension, as the opened room held it, and the inner packet. */
  function Behind(f: seq<byte>, p: PathEntry, room: seq<byte>): seq<byte>
    requires IsIPv4(f) && p.pathLen <= MAX_PATH_LEN && |room| == EncapLen(p)
  {
    room[BEFORE_PATH + p.pathLen..] + f[ETH_LEN..]
  }

  lemma EncapsulatedPayload(f: seq<byte>, p: PathEntry, room: seq<byte>)
    requires IsIPv4(f) && p.pathLen <= MAX_PATH_LEN && |room| == EncapLen(p)
    ensures Encapsulated(f, p, room)[META_AT..] == Payload(f, p, room)
  {
    var total := |f| - ETH_LEN + EncapLen(p);
    var front := p.nextHopMAC + f[6..12] + ETH_P_IP + OuterIP(total, room, p) + OuterUDP(total - IP_LEN) + room[28..64];
    assert Encapsulated(f, p, room) == front + Payload(f, p, room);
  }

  /** A field inside the path, read from the frame and from the entry. */
  lemma PayloadField(g: seq<byte>, payload: seq<byte>, at: nat, len: nat)
    requires |g| >= META_AT && g[META_AT..] == payload && at + len <= |payload|
    ensures Field(g, META_AT + at, len) == Field(payload, at, len)
  {
    assert g == g[..META_AT] + payload;
    BehindField(g[..META_AT], payload, at, len);
  }

  /** What egress makes of a well-formed entry: never an access outside the packet; it lets the frame
      pass if and only if there was room and the MAC of the stored hop 0 could be computed, and then the
      frame carries its parts, that MAC in hop field 0, and the inner packet untouched. */
  lemma EgressOfWellFormed(f: seq<byte>, p: PathEntry, mac: MacFunction, grant: Grant)
    requires IsIPv4(f) && p.WellFormed()
    ensures var (v, h) := Egressed(f, Some(p), mac, grant);
            && v != Trap
            && (v == Pass <==> grant.Granted? && FirstMac(p, mac, p.macKey).Some?)
            && (v == Pass ==>
                  && Carries(h, f, p)
                  && h[META_AT..] == Overwrite(Payload(f, p, RoomOf(grant, EncapLen(p))),
                                               META_LEN + p.NumInf() * INFO_LEN + MAC_AT,
                                               FirstMac(p, mac, p.macKey).value))
  {
    if grant.Granted? {
      var room := RoomOf(grant, EncapLen(p));
      assert Egressed(f, Some(p), mac, grant) == Stamp(Encapsulated(f, p, room), p, mac);
      hide Egressed; hide Encapsulated; hide Payload; hide Carries; hide Stamp; hide Overwrite; hide FirstMac;
      StampOfWellFormed(f, p, mac, room);
    }
  }

  lemma StampOfWellFormed(f: seq<byte>, p: PathEntry, mac: MacFunction, room: seq<byte>)
    requires IsIPv4(f) && p.WellFormed() && |room| == EncapLen(p)
    ensures var (v, h) := Stamp(Encapsulated(f, p, room), p, mac);
            && v != Trap
            && (v == Pass <==> FirstMac(p, mac, p.macKey).Some?)
            && (v == Pass ==>
                  && Carries(h, f, p)
                  && h[META_AT..] == Overwrite(Payload(f, p, room), META_LEN + p.NumInf() * INFO_LEN + MAC_AT,
                                               FirstMac(p, mac, p.macKey).value))
  {
    var g := Encapsulated(f, p, room);
    EncapsulatedCarries(f, p, room);
    EncapsulatedPayload(f, p, room);
    MacInRoomIff(f, p, room);
    FirstFields(g, f, p, room);
    hide Encapsulated; hide Payload; hide Carries; hide Stamp; hide Overwrite; hide FirstMac; hide Field;
    StampIsFirstMac(g, f, p, mac, Payload(f, p, room));
  }

  lemma FirstFields(g: seq<byte>, f: seq<byte>, p: PathEntry, room: seq<byte>)
    requires IsIPv4(f) && p.WellFormed() && |room| == EncapLen(p) && |g| >= META_AT
    requires g[META_AT..] == Payload(f, p, room)
    ensures INFO_AT + p.NumInf() * INFO_LEN + HOP_LEN <= META_AT + p.pathLen <= |g|
    ensures Field(g, INFO_AT, INFO_LEN) == StoredInfo(p)
    ensures Field(g, INFO_AT + p.NumInf() * INFO_LEN, HOP_LEN) == StoredHop(p, 0)
  {
    var payload := Payload(f, p, room);
    assert payload[..p.pathLen] == p.hopFields[..p.pathLen];
    PathField(payload, p, META_LEN, INFO_LEN);
    PathField(payload, p, META_LEN + p.NumInf() * INFO_LEN, HOP_LEN);
    PayloadField(g, payload, META_LEN, INFO_LEN);
    PayloadField(g, payload, META_LEN + p.NumInf() * INFO_LEN, HOP_LEN);
  }

  lemma PathField(payload: seq<byte>, p: PathEntry, at: nat, len: nat)
    requires p.pathLen <= MAX_PATH_LEN && p.pathLen <= |payload| && payload[..p.pathLen] == p.hopFields[..p.pathLen]
    requires at + len <= p.pathLen
    ensures Field(payload, at, len) == Field(p.hopFields, at, len)
  {
    InPrefix(payload, p.pathLen, at, len);
    InPrefix(p.hopFields, p.pathLen, at, len);
  }

  lemma InPrefix(s: seq<byte>, n: nat, at: nat, len: nat)
    requires at + len <= n <= |s|
    ensures Field(s[..n], at, len) == Field(s, at, len)
  {
    var x, y := Field(s[..n], at, len), Field(s, at, len);
    forall i | 0 <= i < len
      ensures x[i] == y[i]
    {
      assert s[..n][at + i] == s[at + i];
    }
  }

  lemma StampIsFirstMac(g: seq<byte>, f: seq<byte>, p: PathEntry, mac: MacFunction, payload: seq<byte>)
    requires IsIPv4(f) && p.WellFormed() && Carries(g, f, p) && g[META_AT..] == payload
    requires HopAt(g) == INFO_AT + p.NumInf() * INFO_LEN && HopAt(g) + HOP_LEN <= META_AT + p.pathLen
    requires Field(g, INFO_AT, INFO_LEN) == StoredInfo(p) && Field(g, HopAt(g), HOP_LEN) == StoredHop(p, 0)
    ensures var (v, h) := Stamp(g, p, mac);
            && v != Trap
            && (v == Pass <==> FirstMac(p, mac, p.macKey).Some?)
            && (v == Pass ==>
                  && Carries(h, f, p)
                  && h[META_AT..] == Overwrite(payload, META_LEN + p.NumInf() * INFO_LEN + MAC_AT,
                                               FirstMac(p, mac, p.macKey).value))
  {
    assert |f| >= ETH_LEN + IP_LEN && |g| == |f| + EncapLen(p);
    hide Carries; hide Overwrite; hide IsIPv4; hide Field;
    if FirstMac(p, mac, p.macKey).Some? {
      OverwriteCarries(g, f, p, HopAt(g) + MAC_AT, FirstMac(p, mac, p.macKey).value);
      OverwriteBehind(g, META_AT, HopAt(g) + MAC_AT, FirstMac(p, mac, p.macKey).value);
    }
  }

  lemma OverwriteBehind(g: seq<byte>, from: nat, at: nat, b: seq<byte>)
    requires from <= at && at + |b| <= |g|
    ensures Overwrite(g, at, b)[from..] == Overwrite(g[from..], at - from, b)
  {
  }

  // ---------------------------------------------------------------------------
  // Round trip
  // ---------------------------------------------------------------------------

  /** Where ingress looks for the current hop field, which may lie behind the path. */
  function CurrentAt(p: PathEntry): nat {
    META_LEN + p.NumInf() * INFO_LEN + p.CurHop() * HOP_LEN
  }

  /** A frame with the parts of a well-formed entry: ingress passes it exactly when the current hop field
      lies inside the frame and verifies under the local key, and then gives back the inner packet behind
      an Ethernet header with the next hop's and the sender's own MAC address. */
  lemma IngressOfCarrier(h: seq<byte>, f: seq<byte>, p: PathEntry, mac: MacFunction, key: Option<seq<byte>>)
    requires IsIPv4(f) && p.WellFormed() && Carries(h, f, p)
    ensures var at := META_AT + CurrentAt(p);
            Ingressed(h, key, mac)
            == if key.Some? && at + HOP_LEN <= |h|
                  && Verifies(mac, key.value, Field(h, INFO_AT, INFO_LEN), Field(h, at, HOP_LEN))
               then (Pass, p.nextHopMAC + f[6..]) else (Drop, h)
  {
    CarriesIsScion(h, f, p);
    assert h[META_AT] == p.hopFields[0];
    assert h[META_AT + NUM_INF_AT] == p.hopFields[NUM_INF_AT];
    var at := META_AT + CurrentAt(p);
    assert Ingress.Parse(h) == if at + HOP_LEN <= |h| then Scion(INFO_AT, at, EncapLen(p)) else Malformed;
    StrippedCarrier(h, f, p);
  }

  lemma StrippedCarrier(h: seq<byte>, f: seq<byte>, p: PathEntry)
    requires IsIPv4(f) && p.pathLen <= MAX_PATH_LEN && Carries(h, f, p)
    ensures Stripped(h, EncapLen(p)) == p.nextHopMAC + f[6..]
  {
    assert f[6..] == f[6..12] + ETH_P_IP + f[ETH_LEN..] by {
      assert f[6..] == f[6..12] + f[12..14] + f[14..];
    }
  }

  /** What decides over an encapsulated frame, in terms of the stored entry, the key and the bytes behind
      the path: at hop 0, whether both keys give the same MAC; at a later hop, whether the stored hop field
      verifies; past the path, whether there are enough bytes and they happen to verify. */
  predicate Accepted(f: seq<byte>, p: PathEntry, mac: MacFunction, room: seq<byte>, key: seq<byte>)
    requires IsIPv4(f) && p.WellFormed() && |room| == EncapLen(p)
  {
    if p.CurHop() == 0 then FirstMac(p, mac, key) == FirstMac(p, mac, p.macKey)
    else if p.CurHop() < p.NumHf() then Verifies(mac, key, StoredInfo(p), StoredHop(p, p.CurHop()))
    else
      var at := (p.CurHop() - p.NumHf()) * HOP_LEN;
      at + HOP_LEN <= |Behind(f, p, room)|
      && Verifies(mac, key, StoredInfo(p), Field(Behind(f, p, room), at, HOP_LEN))
  }

  /** The hop field ingress checks, in the payload that egress stamped. */
  lemma CheckedField(f: seq<byte>, p: PathEntry, room: seq<byte>, m: Mac)
    requires IsIPv4(f) && p.WellFormed() && |room| == EncapLen(p)
    ensures var stamped := Overwrite(Payload(f, p, room), META_LEN + p.NumInf() * INFO_LEN + MAC_AT, m);
            var at := CurrentAt(p);
            && Field(stamped, META_LEN, INFO_LEN) == StoredInfo(p)
            && (p.CurHop() < p.NumHf() ==> at + HOP_LEN <= |stamped|)
            && (p.CurHop() == 0 ==> Field(stamped, at, HOP_LEN) == Overwrite(StoredHop(p, 0), MAC_AT, m))
            && (0 < p.CurHop() < p.NumHf() ==> Field(stamped, at, HOP_LEN) == StoredHop(p, p.CurHop()))
            && (p.CurHop() >= p.NumHf() ==>
                  var k := (p.CurHop() - p.NumHf()) * HOP_LEN;
                  && (at + HOP_LEN <= |stamped| <==> k + HOP_LEN <= |Behind(f, p, room)|)
                  && (at + HOP_LEN <= |stamped| ==>
                        Field(stamped, at, HOP_LEN) == Field(Behind(f, p, room), k, HOP_LEN)))
  {
    var payload := Payload(f, p, room);
    var first := META_LEN + p.NumInf() * INFO_LEN;
    var at := CurrentAt(p);
    PayloadParts(f, p, room);
    hide Payload; hide Behind; hide Overwrite; hide Field; hide IsIPv4;
    PathField(payload, p, META_LEN, INFO_LEN);
    OverwriteElsewhere(payload, first + MAC_AT, m, META_LEN, INFO_LEN);
    if p.CurHop() == 0 {
      PathField(payload, p, first, HOP_LEN);
      OverwriteWithin(payload, first, HOP_LEN, MAC_AT, m);
    } else if p.CurHop() < p.NumHf() {
      assert (p.CurHop() + 1) * HOP_LEN <= p.NumHf() * HOP_LEN;
      PathField(payload, p, at, HOP_LEN);
      OverwriteElsewhere(payload, first + MAC_AT, m, at, HOP_LEN);
    } else if at + HOP_LEN <= |payload| {
      var k := (p.CurHop() - p.NumHf()) * HOP_LEN;
      assert at == p.pathLen + k;
      OverwriteElsewhere(payload, first + MAC_AT, m, at, HOP_LEN);
      BehindField(p.hopFields[..p.pathLen], Behind(f, p, room), k, HOP_LEN);
    }
  }

  lemma PayloadParts(f: seq<byte>, p: PathEntry, room: seq<byte>)
    requires IsIPv4(f) && p.pathLen <= MAX_PATH_LEN && |room| == EncapLen(p)
    ensures var payload := Payload(f, p, room);
            && payload == p.hopFields[..p.pathLen] + Behind(f, p, room)
            && p.pathLen <= |payload| && payload[..p.pathLen] == p.hopFields[..p.pathLen]
  {
  }

  lemma OverwriteElsewhere(s: seq<byte>, off: nat, b: seq<byte>, at: nat, len: nat)
    requires off + |b| <= |s| && at + len <= |s| && (at + len <= off || off + |b| <= at)
    ensures Field(Overwrite(s, off, b), at, len) == Field(s, at, len)
  {
  }

  lemma OverwriteWithin(s: seq<byte>, at: nat, len: nat, off: nat, b: seq<byte>)
    requires at + len <= |s| && off + |b| <= len
    ensures Field(Overwrite(s, at + off, b), at, len) == Overwrite(Field(s, at, len), off, b)
  {
  }

  lemma BehindField(a: seq<byte>, b: seq<byte>, at: nat, len: nat)
    requires at + len <= |b|
    ensures Field(a + b, |a| + at, len) == Field(b, at, len)
  {
    var x, y := Field(a + b, |a| + at, len), Field(b, at, len);
    forall i | 0 <= i < len
      ensures x[i] == y[i]
    {
      assert (a + b)[|a| + (at + i)] == b[at + i];
    }
  }

  /** The exact condition: for any well-formed entry, any current hop and any key, ingress passes the frame
      that egress let pass if and only if it is accepted, and gives back the inner packet then. */
  lemma RoundTripsIff(f: seq<byte>, p: PathEntry, mac: MacFunction, grant: Grant, key: seq<byte>)
    requires IsIPv4(f) && p.WellFormed()
    requires Egressed(f, Some(p), mac, grant).0 == Pass
    ensures grant.Granted?
    ensures var h := Egressed(f, Some(p), mac, grant).1;
            Ingressed(h, Some(key), mac)
            == if Accepted(f, p, mac, RoomOf(grant, EncapLen(p)), key) then (Pass, p.nextHopMAC + f[6..])
               else (Drop, h)
  {
    EgressOfWellFormed(f, p, mac, grant);
    hide Egressed; hide Ingressed; hide Payload; hide Carries; hide Accepted; hide Overwrite; hide Verifies;
    var h := Egressed(f, Some(p), mac, grant).1;
    IngressOfCarrier(h, f, p, mac, Some(key));
    CheckIsAccepted(h, f, p, mac, RoomOf(grant, EncapLen(p)), key);
  }

  lemma CheckIsAccepted(h: seq<byte>, f: seq<byte>, p: PathEntry, mac: MacFunction, room: seq<byte>, key: seq<byte>)
    requires IsIPv4(f) && p.WellFormed() && |room| == EncapLen(p) && FirstMac(p, mac, p.macKey).Some?
    requires |h| >= META_AT
    requires h[META_AT..] == Overwrite(Payload(f, p, room), META_LEN + p.NumInf() * INFO_LEN + MAC_AT,
                                       FirstMac(p, mac, p.macKey).value)
    ensures INFO_AT + INFO_LEN <= |h|
    ensures var at := META_AT + CurrentAt(p);
            at + HOP_LEN <= |h| && Verifies(mac, key, Field(h, INFO_AT, INFO_LEN), Field(h, at, HOP_LEN))
            <==> Accepted(f, p, mac, room, key)
  {
    var m := FirstMac(p, mac, p.macKey).value;
    var stamped := Overwrite(Payload(f, p, room), META_LEN + p.NumInf() * INFO_LEN + MAC_AT, m);
    CheckedField(f, p, room, m);
    hide Payload; hide Behind; hide Overwrite; hide IsIPv4; hide Field;
    PayloadField(h, stamped, META_LEN, INFO_LEN);
    if CurrentAt(p) + HOP_LEN <= |stamped| {
      PayloadField(h, stamped, CurrentAt(p), HOP_LEN);
    }
    StampedHop(StoredHop(p, 0), m);
  }

  /** Encapsulate, then decapsulate: when the entry's current hop is hop 0 and the ingress side knows
      the same key, every frame egress lets pass comes out of ingress with every byte as it went in,
      but for the destination MAC address, which is the next hop's. */
  lemma RoundTrips(f: seq<byte>, p: PathEntry, mac: MacFunction, grant: Grant)
    requires IsIPv4(f) && p.WellFormed() && p.CurHop() == 0
    requires Egressed(f, Some(p), mac, grant).0 == Pass
    ensures Ingressed(Egressed(f, Some(p), mac, grant).1, Some(p.macKey), mac) == (Pass, p.nextHopMAC + f[6..])
  {
    RoundTripsIff(f, p, mac, grant, p.macKey);
  }

  // ---------------------------------------------------------------------------
  // From the control plane's table to the inner packet
  // ---------------------------------------------------------------------------

  /** What the control plane's table says about a frame. */
  function TablePath(f: seq<byte>, t: Table): Option<PathEntry> {
    if IsIPv4(f) then PathFor(t, SourceOf(f)) else None
  }

  /** The path egress chooses on a node with this history. */
  function PathOn(e: Endian, ops: seq<Op>, f: seq<byte>): Option<PathEntry> {
    ChosenPath(f, e, OperateAll(e, LOADED, ops).tc)
  }

  /** After any control-plane history egress acts on every frame by the table alone, and leaves frames
      the table has no path for as they are. */
  lemma EgressFollowsTable(e: Endian, ops: seq<Op>, f: seq<byte>, mac: MacFunction, grant: Grant)
    ensures var t := PerformAll(NO_TABLE, ops);
            && PathOn(e, ops, f) == TablePath(f, t)
            && (IsIPv4(f) ==> TablePath(f, t) == PathFor(t, f[26..30]))
            && (TablePath(f, t).None? ==> Egressed(f, PathOn(e, ops, f), mac, grant) == (Pass, f))
  {
    OperationsMissIngress(e, ops);
    if IsIPv4(f) {
      HistoryRefines(e, ops, SourceOf(f));
    }
  }

  /** Without a local key ingress drops all SCION traffic and lets everything else pass. */
  lemma IngressWithoutKey(f: seq<byte>, mac: MacFunction)
    ensures Ingressed(f, None, mac) == (if IsScion(f) then Drop else Pass, f)
  {
    ParsedFits(f);
    hide Ingress.Parse; hide IsScion;
  }

  /** Every frame egress encapsulates is SCION traffic to ingress, whatever its path entry. */
  lemma EgressedIsScion(f: seq<byte>, p: PathEntry, mac: MacFunction, grant: Grant)
    requires IsIPv4(f) && Egressed(f, Some(p), mac, grant).0 == Pass
    ensures IsScion(Egressed(f, Some(p), mac, grant).1)
  {
    var room := RoomOf(grant, EncapLen(p));
    var g := Encapsulated(f, p, room);
    EncapsulatedCarries(f, p, room);
    CarriesIsScion(g, f, p);
    hide Encapsulated;
    var h := Stamp(g, p, mac).1;
    assert |h| == |g| && h[..INFO_AT] == g[..INFO_AT];
    assert forall i | 0 <= i < INFO_AT :: h[i] == h[..INFO_AT][i] == g[..INFO_AT][i] == g[i];
    assert h[12..14] == g[12..14] && h[36..38] == g[36..38];
  }

  /** The loader fills the TC program's maps only. So after any operations on a node its ingress has no
      local key, drops all SCION traffic and lets everything else pass. */
  lemma IngressHasNoKey(e: Endian, ops: seq<Op>, f: seq<byte>, mac: MacFunction)
    ensures var xdp := OperateAll(e, LOADED, ops).xdp;
            && LocalKey(e, xdp) == None
            && Ingressed(f, LocalKey(e, xdp), mac) == (if IsScion(f) then Drop else Pass, f)
  {
    OperationsMissIngress(e, ops);
    IngressWithoutKey(f, mac);
  }

  /** End to end, as the program is: whatever two nodes' histories, each frame the first one's egress
      encapsulates is dropped by the second one's ingress. */
  lemma EncapsulatedFramesAreDropped(e1: Endian, ops1: seq<Op>, e2: Endian, ops2: seq<Op>, f: seq<byte>,
                                     mac: MacFunction, grant: Grant)
    requires TablePath(f, PerformAll(NO_TABLE, ops1)).Some?
    requires Egressed(f, PathOn(e1, ops1, f), mac, grant).0 == Pass
    ensures var h := Egressed(f, PathOn(e1, ops1, f), mac, grant).1;
            Ingressed(h, LocalKey(e2, OperateAll(e2, LOADED, ops2).xdp), mac) == (Drop, h)
  {
    var h := Egressed(f, PathOn(e1, ops1, f), mac, grant).1;
    EgressFollowsTable(e1, ops1, f, mac, grant);
    EgressedIsScion(f, PathOn(e1, ops1, f).value, mac, grant);
    IngressHasNoKey(e2, ops2, h, mac);
  }

  /** End to end, whatever the ingress maps hold: a frame of a pod whose table path is well-formed, let
      pass by egress, comes out of ingress unchanged if and only if those maps have a local key and the
      frame is accepted under it. */
  lemma EndToEndIff(e1: Endian, ops: seq<Op>, e2: Endian, xdp: Maps, f: seq<byte>, p: PathEntry,
                    mac: MacFunction, grant: Grant)
    requires TablePath(f, PerformAll(NO_TABLE, ops)) == Some(p) && p.WellFormed()
    requires Egressed(f, PathOn(e1, ops, f), mac, grant).0 == Pass
    ensures grant.Granted?
    ensures var h := Egressed(f, PathOn(e1, ops, f), mac, grant).1;
            var key := LocalKey(e2, xdp);
            Ingressed(h, key, mac)
            == if key.Some? && Accepted(f, p, mac, RoomOf(grant, EncapLen(p)), key.value)
               then (Pass, p.nextHopMAC + f[6..]) else (Drop, h)
  {
    EgressFollowsTable(e1, ops, f, mac, grant);
    match LocalKey(e2, xdp)
    case None =>
      EgressedIsScion(f, p, mac, grant);
      IngressWithoutKey(Egressed(f, Some(p), mac, grant).1, mac);
      RoundTripsIff(f, p, mac, grant, []);
    case Some(key) =>
      RoundTripsIff(f, p, mac, grant, key);
  }

  /** Sharing is what is missing: were the maps one instance, ingress would find the key of the table's
      path 0. */
  lemma LocalKeyWhenShared(e: Endian, ops: seq<Op>)
    ensures var t := PerformAll(NO_TABLE, ops);
            LocalKey(e, Shared(OperateAll(e, LOADED, ops)).xdp)
            == if LOCAL_KEY_ID in t.pathOf then Some(t.pathOf[LOCAL_KEY_ID].macKey) else None
  {
    var t := PerformAll(NO_TABLE, ops);
    var m := DoAll(e, NO_MAPS, ops);
    OperationsMissIngress(e, ops);
    HistoryRefines(e, ops, [0, 0, 0, 0]);
    assert PathAgreesAt(e, m.paths, t.pathOf, LOCAL_KEY_ID);
    if LOCAL_KEY_ID in t.pathOf {
      EntryRoundTrip(e, t.pathOf[LOCAL_KEY_ID]);
    }
    hide Marshal; hide View;
  }

  /** And then two nodes of any byte order and history would do: a frame of a pod whose table path is
      well-formed and starts at hop 0, let pass by the first node's egress, comes out of the second one's
      ingress unchanged if its path 0 has that path's key. */
  lemma EndToEndWhenShared(e1: Endian, ops1: seq<Op>, e2: Endian, ops2: seq<Op>, f: seq<byte>, p: PathEntry,
                           mac: MacFunction, grant: Grant)
    requires TablePath(f, PerformAll(NO_TABLE, ops1)) == Some(p) && p.WellFormed() && p.CurHop() == 0
    requires var t2 := PerformAll(NO_TABLE, ops2);
             LOCAL_KEY_ID in t2.pathOf && t2.pathOf[LOCAL_KEY_ID].macKey == p.macKey
    requires Egressed(f, PathOn(e1, ops1, f), mac, grant).0 == Pass
    ensures var h := Egressed(f, PathOn(e1, ops1, f), mac, grant).1;
            Ingressed(h, LocalKey(e2, Shared(OperateAll(e2, LOADED, ops2)).xdp), mac)
            == (Pass, p.nextHopMAC + f[6..])
  {
    LocalKeyWhenShared(e2, ops2);
    EndToEndIff(e1, ops1, e2, Shared(OperateAll(e2, LOADED, ops2)).xdp, f, p, mac, grant);
  }
}
