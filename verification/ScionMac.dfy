/** The hop field MAC: a deterministic function of the key, the info field and the hop field without
    its MAC, about which nothing else is assumed. */
module ScionMac {
  import opened Options
  import opened Bytes
  import opened Layout

  type Mac = s: seq<byte> | |s| == MAC_LEN witness seq(MAC_LEN, _ => 0)

  /** `None` is a failure of the cryptography. */
  type MacFunction = (seq<byte>, seq<byte>, seq<byte>) -> Option<Mac>

  function WithoutMac(hop: seq<byte>): seq<byte>
    requires |hop| == HOP_LEN
  {
    hop[..MAC_AT] + hop[MAC_AT + MAC_LEN..]
  }

  function MacOf(hop: seq<byte>): Mac
    requires |hop| == HOP_LEN
  {
    hop[MAC_AT..MAC_AT + MAC_LEN]
  }

  /** The MAC is not an input of the MAC: a hop field that was given its MAC carries it, and the
      rest of it is unchanged. */
  lemma StampedHop(hop: seq<byte>, mac: Mac)
    requires |hop| == HOP_LEN
    ensures MacOf(Overwrite(hop, MAC_AT, mac)) == mac
    ensures WithoutMac(Overwrite(hop, MAC_AT, mac)) == WithoutMac(hop)
  {
  }

  /** calculate_scion_mac: writes the MAC at `at` in the buffer, or fails and leaves it. */
  method CalculateScionMac(f: MacFunction, key: seq<byte>, inf: seq<byte>, hop: seq<byte>,
                           out: array<byte>, at: nat) returns (status: int)
    requires |hop| == HOP_LEN && at + MAC_LEN <= out.Length
    modifies out
    ensures status == 0 || status == -1
    ensures status == 0 <==> f(key, inf, WithoutMac(hop)).Some?
    ensures out[..] == if status == 0 then Overwrite(old(out[..]), at, f(key, inf, WithoutMac(hop)).value)
                       else old(out[..])
    ensures var m := f(key, inf, hop[..8] + hop[14..]);
            && (status == 0 <==> m.Some?)
            && out[..at] == old(out[..at]) && out[at + 6..] == old(out[at + 6..])
            && (m.Some? ==> out[at..at + 6] == m.value)
  {
    var mac := f(key, inf, WithoutMac(hop));
    if mac.None? {
      return -1;
    }
    for i := 0 to MAC_LEN
      invariant out[at..at + i] == mac.value[..i]
      invariant out[..at] == old(out[..at]) && out[at + MAC_LEN..] == old(out[at + MAC_LEN..])
    {
      out[at + i] := mac.value[i];
    }
    assert out[..] == out[..at] + out[at..at + MAC_LEN] + out[at + MAC_LEN..];
    status := 0;
  }

  /** verify_scion_mac: zero exactly when the hop field carries the MAC computed for it. */
  method VerifyScionMac(f: MacFunction, key: seq<byte>, inf: seq<byte>, hop: seq<byte>) returns (status: int)
    requires |hop| == HOP_LEN
    ensures status == 0 <==> Verifies(f, key, inf, hop)
    ensures status == 0 <==> f(key, inf, hop[..8] + hop[14..]) == Some(hop[8..14])
    ensures status == -1 <==> f(key, inf, WithoutMac(hop)).None?
    ensures status == 0 || status == -1 || status == -2
  {
    var computed := new byte[MAC_LEN](_ => 0);
    var calculated := CalculateScionMac(f, key, inf, hop, computed, 0);
    if calculated < 0 {
      return -1;
    }
    assert computed[..] == f(key, inf, WithoutMac(hop)).value;
    for i := 0 to MAC_LEN
      invariant computed[..i] == hop[MAC_AT..MAC_AT + i]
    {
      if computed[i] != hop[MAC_AT + i] {
        assert computed[..][i] != MacOf(hop)[i];
        return -2;
      }
    }
    assert computed[..MAC_LEN] == computed[..];
    status := 0;
  }

  predicate Verifies(f: MacFunction, key: seq<byte>, inf: seq<byte>, hop: seq<byte>)
    requires |hop| == HOP_LEN
  {
    f(key, inf, WithoutMac(hop)) == Some(MacOf(hop))
  }
}
