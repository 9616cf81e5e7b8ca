/** The two datapath programs in bytes, offsets and numbers only, written out once more without any of the
    layout's names: what a frame must look like to be touched, and what becomes of each byte of it. */
module PacketFacts {
  import opened Options
  import opened Bytes
  import opened Layout
  import opened ScionMac
  import opened Egress
  import Ingress

  // ---------------------------------------------------------------------------
  // Egress
  // ---------------------------------------------------------------------------

  function Two(x: nat): seq<byte> {
    [(x / 256) % 256, x % 256]
  }

  /** IPv4 over Ethernet, with the header it announces. */
  predicate Wrappable(f: seq<byte>) {
    |f| >= 34 && f[12] == 8 && f[13] == 0 && 14 + 4 * (f[14] % 16) <= |f|
  }

  /** Version and IHL, TOS, total length, id and fragment, TTL and UDP, checksum, the source address as it was,
      the next hop's address. */
  function NewIP(total: nat, p: PathEntry, x: seq<byte>): seq<byte>
    requires |x| >= 16
  {
    [0x45, 0] + Two(total) + [0, 0, 0, 0, 64, 17, 0, 0] + x[12..16] + p.nextHopIP
  }

  /** From port 30041 to port 30041, length, checksum. */
  function NewUDP(total: nat): seq<byte> {
    [0x75, 0x59] + [0x75, 0x59] + Two(total) + [0, 0]
  }

  /** The frame in its new headers, where `x` is what the opened room of 72 bytes and the path held: the next
      hop's and the sender's own MAC address, IPv4 and UDP, the SCION common and address header, the path, the
      extension, and the inner packet. */
  function Wrapped(f: seq<byte>, p: PathEntry, x: seq<byte>): (g: seq<byte>)
    requires |f| >= 34 && p.pathLen <= 256 && |x| == 72 + p.pathLen
    ensures |g| == |f| + 72 + p.pathLen
  {
    var total := |f| - 14 + 72 + p.pathLen;
    p.nextHopMAC + f[6..12] + [8, 0]
    + (NewIP(total, p, x) + NewUDP(total - 20) + x[28..64] + p.hopFields[..p.pathLen] + x[64 + p.pathLen..])
    + f[14..]
  }

  /** The first hop field behind the info fields gets the MAC of the first info field and of itself without it. */
  function Stamped(g: seq<byte>, p: PathEntry, mac: MacFunction): (Verdict, seq<byte>)
    requires |g| >= 106
  {
    var at := 85 + 8 * (g[84] as int);
    if at + 16 > |g| then (Trap, g)
    else match mac(p.macKey, g[85..93], g[at..at + 8] + g[at + 14..at + 16])
      case None => (Drop, g)
      case Some(m) => (Pass, g[..at + 8] + m + g[at + 14..])
  }

  /** Egress, byte by byte: a frame without a path leaves as it came, one with a path too long or without room
      is dropped as it came, and any other is wrapped and stamped. */
  lemma EgressInBytes(f: seq<byte>, path: Option<PathEntry>, mac: MacFunction, grant: Grant)
    requires path.Some? ==> Wrappable(f) && IsIPv4(f)
    ensures Egressed(f, path, mac, grant)
         == if path.None? then (Pass, f)
            else if path.value.pathLen > 256 || grant.Refused? then (Drop, f)
            else Stamped(Wrapped(f, path.value, seq(72 + path.value.pathLen, i requires 0 <= i => grant.fill(i))),
                         path.value, mac)
  {
    if path.Some? && path.value.pathLen <= 256 && grant.Granted? {
      var p := path.value;
      var x := seq(72 + p.pathLen, i requires 0 <= i => grant.fill(i));
      assert x == RoomOf(grant, EncapLen(p));
      EncapsulatedIsWrapped(f, p, x);
      StampIsStamped(Wrapped(f, p, x), p, mac);
      hide Stamp; hide Stamped; hide Wrapped; hide Encapsulated;
    }
  }

  lemma WrappableIffIPv4(f: seq<byte>)
    ensures Wrappable(f) <==> IsIPv4(f)
  {
    if |f| >= 34 {
      assert f[12..14] == [f[12], f[13]];
      assert [f[12], f[13]][0] == f[12] && [f[12], f[13]][1] == f[13];
    }
  }

  lemma EncapsulatedIsWrapped(f: seq<byte>, p: PathEntry, x: seq<byte>)
    requires IsIPv4(f) && p.pathLen <= 256 && |x| == 72 + p.pathLen
    ensures Encapsulated(f, p, x) == Wrapped(f, p, x)
  {
    var total := |f| - 14 + 72 + p.pathLen;
    assert Be16(30041) == [0x75, 0x59];
    assert OuterIP(total, x, p) == NewIP(total, p, x);
    assert OuterUDP(total - 20) == NewUDP(total - 20);
    hide OuterIP; hide OuterUDP; hide NewIP; hide NewUDP;
  }

  lemma StampIsStamped(g: seq<byte>, p: PathEntry, mac: MacFunction)
    requires |g| >= 106
    ensures Stamp(g, p, mac) == Stamped(g, p, mac)
  {
    var at := 85 + 8 * (g[84] as int);
    assert HopAt(g) == at;
    if at + 16 <= |g| {
      HopInBytes(g, at);
      assert Field(g, INFO_AT, INFO_LEN) == g[85..93];
      assert Field(g, at, HOP_LEN) == g[at..at + 16];
    }
  }

  /** What the MAC is computed from is the hop field's first eight bytes and its last two. */
  lemma HopInBytes(f: seq<byte>, at: nat)
    requires at + 16 <= |f|
    ensures WithoutMac(f[at..at + 16]) == f[at..at + 8] + f[at + 14..at + 16]
    ensures MacOf(f[at..at + 16]) == f[at + 8..at + 14]
  {
    Within(f, at, 16, 0, 8);
    Within(f, at, 16, 8, 14);
    Within(f, at, 16, 14, 16);
  }

  lemma Within(f: seq<byte>, at: nat, n: nat, i: nat, j: nat)
    requires at + n <= |f| && i <= j <= n
    ensures f[at..at + n][i..j] == f[at + i..at + j]
  {
    var x, y := f[at..at + n][i..j], f[at + i..at + j];
    forall k | 0 <= k < j - i
      ensures x[k] == y[k]
    {
      assert f[at..at + n][i + k] == f[at + i + k];
    }
  }

  // ---------------------------------------------------------------------------
  // Ingress
  // ---------------------------------------------------------------------------

  /** All traffic but that passes untouched, whatever key and MAC. */
  lemma OtherTrafficPasses(f: seq<byte>, key: Option<seq<byte>>, mac: MacFunction)
    requires || |f| < 42 || f[12] != 8 || f[13] != 0 || f[23] != 17
             || |f| < 22 + 4 * (f[14] % 16)
             || 256 * (f[16 + 4 * (f[14] % 16)] as int) + f[17 + 4 * (f[14] % 16)] != 30041
    ensures Ingress.Ingressed(f, key, mac) == (Pass, f)
  {
    Ingress.IsScionInBytes(f);
    hide Ingress.IsScion;
  }

  /** And that traffic, without a local key, is dropped. */
  lemma ScionTrafficNeedsKey(f: seq<byte>, mac: MacFunction)
    requires |f| >= 42 && f[12] == 8 && f[13] == 0 && f[23] == 17
    requires |f| >= 22 + 4 * (f[14] % 16)
    requires 256 * (f[16 + 4 * (f[14] % 16)] as int) + f[17 + 4 * (f[14] % 16)] == 30041
    ensures Ingress.Ingressed(f, None, mac) == (Drop, f)
  {
    Ingress.IsScionInBytes(f);
    Ingress.ParsedFits(f);
    hide Ingress.IsScion; hide Ingress.Parse;
  }

  /** What becomes of a frame. */
  function Unwrapped(f: seq<byte>, key: Option<seq<byte>>, mac: MacFunction): (Verdict, seq<byte>) {
    if !Ingress.ToScionPort(f) then (Pass, f)
    else
      var u := 14 + 4 * (f[14] % 16);
      if u + 51 > |f| then (Drop, f)
      else
        var hop := u + 51 + 8 * (f[u + 50] as int) + 16 * (f[u + 44] as int / 4);
        var inner := u + 59 + 8 * (f[u + 50] as int) + 16 * (f[u + 49] as int);
        if hop + 16 > |f| || inner > |f| || key.None? then (Drop, f)
        else if mac(key.value, f[u + 51..u + 59], f[hop..hop + 8] + f[hop + 14..hop + 16])
                != Some(f[hop + 8..hop + 14]) then (Drop, f)
        else (if |f| - inner < 20 then Drop else Pass, f[..12] + [8, 0] + f[inner..])
  }

  /** Ingress, byte by byte: traffic to another port passes untouched; a SCION packet is passed, without what
      lies between its Ethernet header and the inner packet, if and only if it holds all it announces, there is a
      local key, the current hop field carries its MAC, and an IPv4 header fits into what remains. */
  lemma IngressInBytes(f: seq<byte>, key: Option<seq<byte>>, mac: MacFunction)
    ensures Ingress.Ingressed(f, key, mac) == Unwrapped(f, key, mac)
  {
    Ingress.IsScionInBytes(f);
    if Ingress.ToScionPort(f) {
      ScionInBytes(f, key, mac);
    }
    hide Ingress.IsScion; hide Ingress.Parse; hide Ingress.Admitted; hide Ingress.ToScionPort;
  }

  lemma ScionInBytes(f: seq<byte>, key: Option<seq<byte>>, mac: MacFunction)
    requires |f| >= 42 && Ingress.ToScionPort(f) && Ingress.IsScion(f)
    ensures Ingress.Ingressed(f, key, mac) == Unwrapped(f, key, mac)
  {
    hide Ingress.ToScionPort; hide Ingress.IsScion; hide Ingress.Parse; hide Ingress.Admitted;
    var u := 14 + 4 * (f[14] % 16);
    ParseInBytes(f);
    if u + 51 <= |f| {
      var hop := u + 51 + 8 * (f[u + 50] as int) + 16 * (f[u + 44] as int / 4);
      var inner := u + 59 + 8 * (f[u + 50] as int) + 16 * (f[u + 49] as int);
      if hop + 16 <= |f| && inner <= |f| {
        AdmittedInBytes(f, u + 51, hop, inner - 14, key, mac);
      }
    }
  }

  lemma ParseInBytes(f: seq<byte>)
    requires Ingress.ToScionPort(f) && Ingress.IsScion(f)
    ensures var u := 14 + 4 * (f[14] % 16);
            if u + 51 > |f| then Ingress.Parse(f) == Ingress.Malformed
            else
              var hop := u + 51 + 8 * (f[u + 50] as int) + 16 * (f[u + 44] as int / 4);
              var inner := u + 59 + 8 * (f[u + 50] as int) + 16 * (f[u + 49] as int);
              Ingress.Parse(f) == if hop + 16 > |f| || inner > |f| then Ingress.Malformed
                                  else Ingress.Scion(u + 51, hop, inner - 14)
  {
    hide Ingress.IsScion;
  }

  lemma AdmittedInBytes(f: seq<byte>, info: nat, hop: nat, len: nat, key: Option<seq<byte>>, mac: MacFunction)
    requires info + 8 <= |f| && hop + 16 <= |f| && 14 + len <= |f|
    ensures Ingress.Admitted(f, info, hop, len, key, mac)
         == if key.None?
               || mac(key.value, f[info..info + 8], f[hop..hop + 8] + f[hop + 14..hop + 16])
                  != Some(f[hop + 8..hop + 14])
            then (Drop, f)
            else (if |f| - (14 + len) < 20 then Drop else Pass, f[..12] + [8, 0] + f[14 + len..])
  {
    HopInBytes(f, hop);
    assert Field(f, info, INFO_LEN) == f[info..info + 8] && Field(f, hop, HOP_LEN) == f[hop..hop + 16];
  }
}
