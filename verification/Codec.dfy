/** How addresses become map keys and path entries become map values, on hosts of either byte order. */
module Codec {
  import opened Options
  import opened Bytes
  import opened Layout

  datatype Endian = Little | Big

  type u32 = x: int | 0 <= x < 0x1_0000_0000

  /** An IPv4 address as the four bytes of a packet. */
  type IPv4 = s: seq<byte> | |s| == 4 witness [0, 0, 0, 0]

  /** Four digits in base 256, the lowest first. */
  function Sum(d0: int, d1: int, d2: int, d3: int): int {
    d0 + 0x100 * (d1 + 0x100 * (d2 + 0x100 * d3))
  }

  /** A native load of four bytes, in the kernel and in `binary.NativeEndian`. */
  function Load32(e: Endian, b: IPv4): u32 {
    match e
    case Little => Sum(b[0], b[1], b[2], b[3])
    case Big => Sum(b[3], b[2], b[1], b[0])
  }

  function Digits(x: u32): IPv4 {
    var q1 := x / 0x100;
    var q2 := q1 / 0x100;
    [x % 0x100, q1 % 0x100, q2 % 0x100, q2 / 0x100]
  }

  /** The native store of a key: its bytes in memory. */
  function Store32(e: Endian, x: u32): IPv4 {
    var d := Digits(x);
    match e
    case Little => d
    case Big => [d[3], d[2], d[1], d[0]]
  }

  lemma LowDigit(d: byte, q: nat)
    ensures (d + 0x100 * q) / 0x100 == q && (d + 0x100 * q) % 0x100 == d
  {
  }

  lemma DigitsOfSum(b: IPv4)
    ensures Digits(Sum(b[0], b[1], b[2], b[3])) == b
  {
    var q2: nat := b[2] + 0x100 * (b[3] as int);
    var q1: nat := b[1] + 0x100 * q2;
    LowDigit(b[0], q1);
    LowDigit(b[1], q2);
    LowDigit(b[2], b[3]);
  }

  lemma SumOfDigits(x: u32)
    ensures var d := Digits(x); Sum(d[0], d[1], d[2], d[3]) == x
  {
  }

  /** The bytes of the stored key are the bytes of the address: what the control plane writes is
      what the datapath, loading the source address natively, looks up. */
  lemma KeyBytesAreAddressBytes(e: Endian, b: IPv4)
    ensures Store32(e, Load32(e, b)) == b
  {
    if e.Little? {
      DigitsOfSum(b);
    } else {
      DigitsOfSum([b[3], b[2], b[1], b[0]]);
    }
  }

  lemma LoadOfStore(e: Endian, x: u32)
    ensures Load32(e, Store32(e, x)) == x
  {
    SumOfDigits(x);
  }

  lemma KeysAreDistinct(e: Endian, a: IPv4, b: IPv4)
    requires Load32(e, a) == Load32(e, b)
    ensures a == b
  {
    KeyBytesAreAddressBytes(e, a);
    KeyBytesAreAddressBytes(e, b);
  }

  /** A key is the address's bytes as a number, the first byte lowest on a little-endian host and highest on a
      big-endian one. */
  lemma KeyIsPositional(e: Endian, b: IPv4)
    ensures Load32(e, b)
         == match e
            case Little => b[0] + b[1] as int * 256 + b[2] as int * 65536 + b[3] as int * 16777216
            case Big => b[0] as int * 16777216 + b[1] as int * 65536 + b[2] as int * 256 + b[3]
  {
  }

  const V4_IN_V6: seq<byte> := [0, 0, 0, 0, 0, 0, 0, 0, 0, 0, 255, 255]

  /** net.IP.To4: the four-byte form of an address in four or sixteen bytes, if there is one. */
  function To4(ip: seq<byte>): Option<IPv4> {
    if |ip| == 4 then Some(ip)
    else if |ip| == 16 && ip[..12] == V4_IN_V6 then Some(ip[12..])
    else None
  }

  function IPToKey(e: Endian, ip: seq<byte>): Option<u32> {
    match To4(ip)
    case None => None
    case Some(v4) => Some(Load32(e, v4))
  }

  function IPFromKey(e: Endian, key: u32): seq<byte> {
    Store32(e, key)
  }

  /** IPToKey and IPFromKey are inverse on all IPv4 addresses, in either form, and IPToKey fails on
      exactly the addresses that have no IPv4 form. */
  lemma KeyRoundTrip(e: Endian, ip: seq<byte>, key: u32)
    ensures IPToKey(e, IPFromKey(e, key)) == Some(key)
    ensures IPToKey(e, ip).Some?
            <==> |ip| == 4 || (|ip| == 16 && ip[..12] == [0, 0, 0, 0, 0, 0, 0, 0, 0, 0, 255, 255])
    ensures IPToKey(e, ip).Some? ==> IPFromKey(e, IPToKey(e, ip).value) == ip[|ip| - 4..]
  {
    LoadOfStore(e, key);
    if To4(ip).Some? {
      KeyBytesAreAddressBytes(e, To4(ip).value);
    }
  }

  // ---------------------------------------------------------------------------
  // Path entries
  // ---------------------------------------------------------------------------

  const ENTRY_LEN := 284

  function Store16(e: Endian, x: nat): (r: seq<byte>)
    requires x < 0x1_0000
    ensures |r| == 2
  {
    match e
    case Little => [x % 0x100, x / 0x100]
    case Big => [x / 0x100, x % 0x100]
  }

  function Load16(e: Endian, b: seq<byte>): (x: nat)
    requires |b| == 2
    ensures x < 0x1_0000
  {
    match e
    case Little => Sum(b[0], b[1], 0, 0)
    case Big => Sum(b[1], b[0], 0, 0)
  }

  /** The Go struct as it is serialised into the map. */
  function Marshal(e: Endian, p: PathEntry): (r: seq<byte>)
    ensures |r| == ENTRY_LEN
  {
    p.nextHopIP + p.nextHopMAC + Store16(e, p.pathLen) + p.hopFields + p.macKey
  }

  /** The C struct as the datapath reads it from the map, field by field at its offset. */
  function View(e: Endian, b: seq<byte>): PathEntry
    requires |b| == ENTRY_LEN
  {
    RawPathEntry(b[0..4], b[4..10], Load16(e, b[10..12]), b[12..268], b[268..284])
  }

  lemma EntryRoundTrip(e: Endian, p: PathEntry)
    ensures View(e, Marshal(e, p)) == p
  {
    var len := Store16(e, p.pathLen);
    Parts(p.nextHopIP, p.nextHopMAC, len, p.hopFields, p.macKey);
    hide Load16; hide Store16;
    var q := View(e, Marshal(e, p));
    assert q.nextHopIP == p.nextHopIP && q.nextHopMAC == p.nextHopMAC;
    assert q.hopFields == p.hopFields && q.macKey == p.macKey;
    Load16OfStore16(e, p.pathLen);
  }

  /** Where each field lies in the 284 bytes, which is where the C struct has it. */
  lemma EntryLayout(e: Endian, p: PathEntry)
    ensures var b := Marshal(e, p);
            && |b| == 284
            && b[0..4] == p.nextHopIP && b[4..10] == p.nextHopMAC
            && b[10..12] == (match e
                             case Little => [p.pathLen % 256, p.pathLen / 256]
                             case Big => [p.pathLen / 256, p.pathLen % 256])
            && b[12..268] == p.hopFields && b[268..284] == p.macKey
  {
    Parts(p.nextHopIP, p.nextHopMAC, Store16(e, p.pathLen), p.hopFields, p.macKey);
  }

  lemma Load16OfStore16(e: Endian, x: nat)
    requires x < 0x1_0000
    ensures Load16(e, Store16(e, x)) == x
  {
  }

  /** A serialised struct is its fields, each at the sum of the lengths before it. */
  lemma Parts(a: seq<byte>, b: seq<byte>, c: seq<byte>, d: seq<byte>, e: seq<byte>)
    ensures var s, i, j, k := a + b + c + d + e, |a| + |b|, |a| + |b| + |c|, |a| + |b| + |c| + |d|;
            s[..|a|] == a && s[|a|..i] == b && s[i..j] == c && s[j..k] == d && s[k..k + |e|] == e
  {
    LastPart(a, b);
    LastPart(a + b, c);
    LastPart(a + b + c, d);
    LastPart(a + b + c + d, e);
  }

  lemma LastPart(x: seq<byte>, y: seq<byte>)
    ensures (x + y)[|x|..|x| + |y|] == y
    ensures forall i, j | 0 <= i <= j <= |x| :: (x + y)[i..j] == x[i..j]
  {
  }
}
