/** Sizes, offsets and constants both datapath programs share. The SCION sizes are those of the
    structs in `bpf/headers/scion.h` under the System V rules for bit-fields. */
module Layout {
  import opened Bytes

  const ETH_LEN := 14
  const IP_LEN := 20
  const UDP_LEN := 8
  const SCION_LEN := 12
  const ADDR_LEN := 24
  const META_LEN := 7
  const INFO_LEN := 8
  const HOP_LEN := 16
  const EXT_LEN := 8

  const MAC_AT := 8
  const MAC_LEN := 6
  const NUM_HF_AT := 5
  const NUM_INF_AT := 6

  const MAX_PATH_LEN := 256
  const SCION_UDP_PORT := 30041
  const IPPROTO_UDP: byte := 17
  const ETH_P_IP: seq<byte> := [0x08, 0x00]

  /** What a program says about a packet: TC_ACT_OK and XDP_PASS, TC_ACT_SHOT and XDP_DROP, or an
      access outside the packet, which the kernel does not let a program make. */
  datatype Verdict = Pass | Drop | Trap

  /** The value of a C `int`. */
  type cint = x: int | -0x8000_0000 <= x < 0x8000_0000

  /** `ihl`, the low half of the first byte of an IPv4 header, in 32-bit words. */
  function Ihl(b: byte): nat {
    b % 16
  }

  /** `cur_hf`, the upper six bits of the first byte of the path meta header. */
  function CurHf(b: byte): nat {
    b / 4
  }

  /** `struct scion_path_entry`: what the control plane stores for one path. */
  datatype RawPathEntry = RawPathEntry(
    nextHopIP: seq<byte>, nextHopMAC: seq<byte>, pathLen: nat, hopFields: seq<byte>, macKey: seq<byte>) {
    predicate Sized() {
      && |nextHopIP| == 4 && |nextHopMAC| == 6 && pathLen < 0x1_0000
      && |hopFields| == 256 && |macKey| == 16
    }
    function NumHf(): nat
      requires Sized()
    {
      hopFields[NUM_HF_AT]
    }
    function NumInf(): nat
      requires Sized()
    {
      hopFields[NUM_INF_AT]
    }
    function CurHop(): nat
      requires Sized()
    {
      CurHf(hopFields[0])
    }
    /** `path_len` counts the meta header and exactly the info and hop fields it announces, at
        least one hop field among them. */
    predicate WellFormed()
      requires Sized()
    {
      && pathLen <= MAX_PATH_LEN
      && pathLen == PathHeaderLen(NumInf(), NumHf())
      && NumHf() >= 1
    }
  }

  type PathEntry = e: RawPathEntry | e.Sized()
    witness RawPathEntry(seq(4, _ => 0), seq(6, _ => 0), 0, seq(256, _ => 0), seq(16, _ => 0))

  function PathHeaderLen(numInf: nat, numHf: nat): nat {
    META_LEN + numInf * INFO_LEN + numHf * HOP_LEN
  }

  /** What lies between the Ethernet header and the SCION path. */
  const BEFORE_PATH := IP_LEN + UDP_LEN + SCION_LEN + ADDR_LEN
}
