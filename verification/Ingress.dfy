/** The XDP ingress program: it checks a SCION packet's current hop field and strips everything
    between the Ethernet header and the inner IP packet. */
module Ingress {
  import opened Options
  import opened Bytes
  import opened Layout
  import opened ScionMac
  import Codec
  import Routing

  /** The local AS key: that of path 0 of the program's own map. */
  const LOCAL_KEY_ID: Codec.u32 := 0

  function LocalKey(e: Codec.Endian, m: Routing.Maps): Option<seq<byte>> {
    if LOCAL_KEY_ID in m.paths && |m.paths[LOCAL_KEY_ID]| == Codec.ENTRY_LEN
    then Some(Codec.View(e, m.paths[LOCAL_KEY_ID]).macKey)
    else None
  }

  // ---------------------------------------------------------------------------
  // What the program makes of a frame
  // ---------------------------------------------------------------------------

  /** Where a SCION packet keeps what the program needs. */
  datatype Parsed =
    | NotScion
    | Malformed
    | Scion(infoAt: nat, hopAt: nat, encapLen: nat)

  function UdpAt(f: seq<byte>): nat
    requires |f| > ETH_LEN
  {
    ETH_LEN + Ihl(f[ETH_LEN]) * 4
  }

  /** IPv4 over Ethernet, carrying UDP to the SCION port. */
  predicate IsScion(f: seq<byte>) {
    && |f| >= ETH_LEN + IP_LEN + UDP_LEN
    && f[12..14] == ETH_P_IP
    && f[23] == IPPROTO_UDP
    && UdpAt(f) + UDP_LEN <= |f|
    && f[UdpAt(f) + 2..UdpAt(f) + 4] == Be16(SCION_UDP_PORT)
  }

  /** UDP over IPv4 over Ethernet to port 30041, behind an outer header of any length. */
  predicate ToScionPort(f: seq<byte>) {
    && |f| >= 42 && f[12] == 8 && f[13] == 0 && f[23] == 17
    && var u := 14 + 4 * (f[14] % 16);
       u + 8 <= |f| && 256 * (f[u + 2] as int) + f[u + 3] == 30041
  }

  lemma IsScionInBytes(f: seq<byte>)
    ensures ToScionPort(f) <==> IsScion(f)
  {
    if |f| >= 42 {
      assert f[12..14] == [f[12], f[13]];
      assert [f[12], f[13]][0] == f[12] && [f[12], f[13]][1] == f[13];
      var u := 14 + 4 * (f[14] % 16);
      assert Be16(30041) == [117, 89];
      if u + 8 <= |f| {
        assert f[u + 2..u + 4] == [f[u + 2], f[u + 3]];
        assert [f[u + 2], f[u + 3]][0] == f[u + 2] && [f[u + 2], f[u + 3]][1] == f[u + 3];
        if 256 * (f[u + 2] as int) + f[u + 3] == 30041 {
          assert f[u + 2] == 117 && f[u + 3] == 89;
        }
      }
    }
  }

  function MetaAt(f: seq<byte>): nat
    requires |f| > ETH_LEN
  {
    UdpAt(f) + UDP_LEN + SCION_LEN + ADDR_LEN
  }

  /** The length of everything between the Ethernet header and the inner packet, as the packet itself
      announces it. */
  function StripLen(f: seq<byte>): nat
    requires |f| > ETH_LEN && MetaAt(f) + META_LEN <= |f|
  {
    var meta := MetaAt(f);
    Ihl(f[ETH_LEN]) * 4 + UDP_LEN + SCION_LEN + ADDR_LEN
    + PathHeaderLen(f[meta + NUM_INF_AT], f[meta + NUM_HF_AT]) + EXT_LEN
  }

  function Parse(f: seq<byte>): Parsed {
    if !IsScion(f) then NotScion
    else
      var meta := MetaAt(f);
      if meta + META_LEN > |f| then Malformed
      else
        var hop := meta + META_LEN + f[meta + NUM_INF_AT] * INFO_LEN + CurHf(f[meta]) * HOP_LEN;
        if hop + HOP_LEN > |f| || ETH_LEN + StripLen(f) > |f| then Malformed
        else Scion(meta + META_LEN, hop, StripLen(f))
  }

  /** The frame without its encapsulation: the Ethernet header moved in front of the inner packet. */
  function Stripped(f: seq<byte>, encapLen: nat): (r: seq<byte>)
    requires ETH_LEN + encapLen <= |f|
    ensures |r| == |f| - encapLen
  {
    f[..12] + ETH_P_IP + f[ETH_LEN + encapLen..]
  }

  /** The whole program as a function of the frame and the local key, if there is one. */
  function Ingressed(f: seq<byte>, key: Option<seq<byte>>, mac: MacFunction): (Verdict, seq<byte>) {
    match Parse(f)
    case NotScion => (Pass, f)
    case Malformed => (Drop, f)
    case Scion(info, hop, len) => Admitted(f, info, hop, len, key, mac)
  }

  /** A SCION packet whose current hop field verifies loses its encapsulation; if what remains cannot
      hold an IPv4 header it is dropped all the same. */
  function Admitted(f: seq<byte>, info: nat, hop: nat, len: nat, key: Option<seq<byte>>, mac: MacFunction)
    : (Verdict, seq<byte>)
    requires info + INFO_LEN <= |f| && hop + HOP_LEN <= |f| && ETH_LEN + len <= |f|
  {
    if key.None? || !Verifies(mac, key.value, Field(f, info, INFO_LEN), Field(f, hop, HOP_LEN)) then (Drop, f)
    else
      var g := Stripped(f, len);
      (if |g| < ETH_LEN + IP_LEN then Drop else Pass, g)
  }

  // ---------------------------------------------------------------------------
  // The program
  // ---------------------------------------------------------------------------

  /** The packet as the program sees it: a window of the driver's buffer that starts at `head`. Every
      access goes through Load and Store, which must stay inside the window. */
  class XdpContext {
    const buffer: array<byte>
    var head: nat

    ghost predicate Valid()
      reads this
    {
      head <= buffer.Length
    }

    function Bytes(): seq<byte>
      requires Valid()
      reads this, buffer
    {
      buffer[head..]
    }

    function Length(): nat
      requires Valid()
      reads this
    {
      buffer.Length - head
    }

    constructor (frame: seq<byte>)
      ensures Valid() && fresh(buffer) && Bytes() == frame
    {
      buffer := new byte[|frame|](i requires 0 <= i < |frame| => frame[i]);
      head := 0;
      new;
      assert buffer[..] == frame;
    }

    function Load(at: nat): (b: byte)
      requires Valid() && at < Length()
      reads this, buffer
      ensures b == Bytes()[at]
    {
      buffer[head + at]
    }

    function LoadAll(at: nat, n: nat): (b: seq<byte>)
      requires Valid() && at + n <= Length()
      reads this, buffer
      ensures b == Bytes()[at..at + n]
    {
      buffer[head + at..head + at + n]
    }

    method Store(at: nat, b: seq<byte>)
      requires Valid() && at + |b| <= Length()
      modifies buffer
      ensures Valid() && Bytes() == Overwrite(old(Bytes()), at, b)
    {
      var from := head + at;
      for i := 0 to |b|
        invariant buffer[..from] == old(buffer[..from]) && buffer[from + |b|..] == old(buffer[from + |b|..])
        invariant buffer[from..from + i] == b[..i]
      {
        buffer[from + i] := b[i];
      }
      ghost var was := old(buffer[..]);
      assert buffer[..] == was[..from] + b + was[from + |b|..] by {
        assert buffer[..] == buffer[..from] + buffer[from..from + |b|] + buffer[from + |b|..];
      }
      assert buffer[head..] == buffer[..][head..];
      assert old(Bytes()) == was[head..];
    }

    /** bpf_xdp_adjust_head: refuses to leave less than an Ethernet header. */
    method AdjustHead(delta: cint) returns (ok: bool)
      requires Valid() && delta >= 0
      modifies this`head
      ensures Valid()
      ensures ok <==> delta + ETH_LEN <= old(Length())
      ensures Bytes() == if ok then old(Bytes())[delta..] else old(Bytes())
    {
      ok := head + delta + ETH_LEN <= buffer.Length;
      if ok {
        head := head + delta;
      }
    }
  }

  /** parse_path_meta: the offset of the path meta header, if it lies inside the packet. */
  method ParsePathMeta(ctx: XdpContext, scionOff: cint) returns (meta: Option<cint>)
    requires ctx.Valid() && 0 <= scionOff < 0x1_0000
    ensures meta == if scionOff + SCION_LEN + ADDR_LEN + META_LEN <= ctx.Length()
                    then Some(scionOff + SCION_LEN + ADDR_LEN) else None
  {
    var metaOff: cint := scionOff + SCION_LEN + ADDR_LEN;
    meta := if metaOff + META_LEN > ctx.Length() then None else Some(metaOff);
  }

  /** get_current_hop_field: the offset of the hop field the meta header points at. */
  method CurrentHopField(ctx: XdpContext, scionOff: cint, meta: cint) returns (hop: Option<cint>)
    requires ctx.Valid() && 0 <= scionOff < 0x1_0000
    requires meta == scionOff + SCION_LEN + ADDR_LEN && meta + META_LEN <= ctx.Length()
    ensures var at := meta + META_LEN + ctx.Bytes()[meta + NUM_INF_AT] * INFO_LEN
                      + CurHf(ctx.Bytes()[meta]) * HOP_LEN;
            hop == if at + HOP_LEN <= ctx.Length() then Some(at) else None
  {
    var infos: cint := ctx.Load(meta + NUM_INF_AT) * INFO_LEN;
    var hops: cint := CurHf(ctx.Load(meta)) * HOP_LEN;
    var pathOff: cint := scionOff + SCION_LEN + ADDR_LEN + META_LEN + infos + hops;
    hop := if pathOff + HOP_LEN > ctx.Length() then None else Some(pathOff);
  }

  /** The filter: the length of the outer IPv4 header if this is SCION traffic. */
  method FilterScion(ctx: XdpContext) returns (ihlLen: Option<cint>)
    requires ctx.Valid()
    ensures ihlLen.Some? <==> IsScion(ctx.Bytes())
    ensures var f := ctx.Bytes();
            ihlLen.None? <==> || |f| < 42 || f[12] != 8 || f[13] != 0 || f[23] != 17
                              || |f| < 22 + 4 * (f[14] % 16)
                              || 256 * (f[16 + 4 * (f[14] % 16)] as int) + f[17 + 4 * (f[14] % 16)] != 30041
    ensures ihlLen.Some? ==> ihlLen.value == UdpAt(ctx.Bytes()) - ETH_LEN
  {
    IsScionInBytes(ctx.Bytes());
    if ETH_LEN + IP_LEN + UDP_LEN > ctx.Length() {
      return None;
    }
    if ctx.LoadAll(12, 2) != ETH_P_IP {
      return None;
    }
    if ETH_LEN + IP_LEN > ctx.Length() {
      return None;
    }
    if ctx.Load(ETH_LEN + 9) != IPPROTO_UDP {
      return None;
    }
    var len: cint := Ihl(ctx.Load(ETH_LEN)) * 4;
    var udpOff: cint := ETH_LEN + len;
    if udpOff + UDP_LEN > ctx.Length() {
      return None;
    }
    if ctx.LoadAll(udpOff + 2, 2) != Be16(SCION_UDP_PORT) {
      return None;
    }
    ihlLen := Some(len);
  }

  /** The offsets of the fields the MAC is about, and the exact encapsulation length. */
  method Locate(ctx: XdpContext, ihlLen: cint) returns (parsed: Parsed)
    requires ctx.Valid() && IsScion(ctx.Bytes()) && ihlLen == UdpAt(ctx.Bytes()) - ETH_LEN
    ensures parsed == Parse(ctx.Bytes())
  {
    var scionOff: cint := ETH_LEN + ihlLen + UDP_LEN;
    if scionOff + SCION_LEN > ctx.Length() {
      return Malformed;
    }
    var metaOff := ParsePathMeta(ctx, scionOff);
    if metaOff.None? {
      return Malformed;
    }
    var meta := metaOff.value;
    var hop := CurrentHopField(ctx, scionOff, meta);
    if hop.None? {
      return Malformed;
    }
    var infos: cint := ctx.Load(meta + NUM_INF_AT) * INFO_LEN;
    var hops: cint := ctx.Load(meta + NUM_HF_AT) * HOP_LEN;
    var pathHdrLen: cint := META_LEN + infos + hops;
    var encapLen: cint := ihlLen + UDP_LEN + SCION_LEN + ADDR_LEN + pathHdrLen + EXT_LEN;
    assert encapLen == StripLen(ctx.Bytes());
    if ETH_LEN + encapLen > ctx.Length() {
      return Malformed;
    }
    var info: cint := scionOff + SCION_LEN + ADDR_LEN + META_LEN;
    if info + INFO_LEN > ctx.Length() {
      return Malformed;
    }
    parsed := Scion(info, hop.value, encapLen);
  }

  /** xdp_ingress. Every offset is an int that does not overflow, and every access lies inside the
      packet, whatever its length and contents. */
  method XdpIngress(ctx: XdpContext, loader: Routing.Loader, mac: MacFunction) returns (verdict: Verdict)
    requires ctx.Valid()
    modifies ctx`head, ctx.buffer
    ensures ctx.Valid()
    ensures (verdict, ctx.Bytes()) == Ingressed(old(ctx.Bytes()), LocalKey(loader.endian, loader.XdpMaps()), mac)
  {
    var ihlLen := FilterScion(ctx);
    if ihlLen.None? {
      return Pass;
    }
    var parsed := Locate(ctx, ihlLen.value);
    ParsedFits(ctx.Bytes());
    hide Parse; hide IsScion; hide Admitted;
    if parsed.Malformed? {
      return Drop;
    }
    verdict := Admit(ctx, parsed.infoAt, parsed.hopAt, parsed.encapLen, LocalKey(loader.endian, loader.XdpMaps()), mac);
  }

  /** The border router's duty, and the decapsulation behind it. */
  method Admit(ctx: XdpContext, info: cint, hop: cint, encapLen: cint, key: Option<seq<byte>>, mac: MacFunction)
    returns (verdict: Verdict)
    requires ctx.Valid() && info >= 0 && hop >= 0 && encapLen >= 0
    requires info + INFO_LEN <= ctx.Length() && hop + HOP_LEN <= ctx.Length() && ETH_LEN + encapLen <= ctx.Length()
    modifies ctx`head, ctx.buffer
    ensures ctx.Valid()
    ensures (verdict, ctx.Bytes()) == Admitted(old(ctx.Bytes()), info, hop, encapLen, key, mac)
  {
    if key.None? {
      return Drop;
    }
    var status := VerifyScionMac(mac, key.value, ctx.LoadAll(info, INFO_LEN), ctx.LoadAll(hop, HOP_LEN));
    if status != 0 {
      return Drop;
    }
    verdict := Decapsulate(ctx, encapLen);
  }

  /** Whatever the packet announces, the lengths and offsets the program computes fit an int by far,
      and what it goes on to use lies inside the packet. */
  lemma ParsedFits(f: seq<byte>)
    ensures match Parse(f)
            case NotScion => !IsScion(f)
            case Malformed => IsScion(f)
            case Scion(info, hop, len) =>
              && IsScion(f)
              && info + INFO_LEN <= |f| && hop + HOP_LEN <= |f| && ETH_LEN + len <= |f|
              && 0 < info <= hop && len < 0x2000 && hop < 0x2000
  {
  }

  /** The Ethernet shift. */
  method Decapsulate(ctx: XdpContext, encapLen: cint) returns (verdict: Verdict)
    requires ctx.Valid() && 0 <= encapLen && ETH_LEN + encapLen <= ctx.Length()
    modifies ctx`head, ctx.buffer
    ensures ctx.Valid()
    ensures ctx.Bytes() == Stripped(old(ctx.Bytes()), encapLen)
    ensures verdict == if |ctx.Bytes()| < ETH_LEN + IP_LEN then Drop else Pass
  {
    ghost var f := ctx.Bytes();
    var origEth := ctx.LoadAll(0, 12) + ETH_P_IP;
    var ok := ctx.AdjustHead(encapLen);
    if !ok {
      return Drop;
    }
    if ETH_LEN > ctx.Length() {
      return Drop;
    }
    ctx.Store(0, origEth);
    assert f[encapLen..][ETH_LEN..] == f[ETH_LEN + encapLen..];
    if ETH_LEN + IP_LEN > ctx.Length() {
      return Drop;
    }
    verdict := Pass;
  }
}
