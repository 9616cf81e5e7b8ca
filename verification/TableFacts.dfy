/** What the control plane's operations do to what egress selects, said in the operations themselves: the last
    accepted word about a pod and the last accepted word about a path decide, and every result is exact. */
module TableFacts {
  import opened Options
  import opened Bytes
  import opened Layout
  import opened Codec
  import opened Routing
  import opened Egress
  import RoundTrip
  import Ingress
  import ScionMac

  /** What an operation is about; nobody, if its address is no IPv4 address. */
  datatype Subject = Pod(ip: IPv4) | Path(id: u32) | Nobody

  function About(op: Op): Subject {
    match op
    case UpdatePodPolicy(ip, _) => AboutPod(ip)
    case DeletePodPolicy(ip) => AboutPod(ip)
    case UpdateScionPath(id, _) => Path(id)
    case DeleteScionPath(id) => Path(id)
  }

  /** An address of four bytes, or of sixteen with the prefix ::ffff:0:0/96. */
  function AboutPod(ip: seq<byte>): Subject {
    if |ip| == 4 then Pod(ip)
    else if |ip| == 16 && ip[..12] == [0, 0, 0, 0, 0, 0, 0, 0, 0, 0, 255, 255] then Pod(ip[12..])
    else Nobody
  }

  predicate Updates(op: Op) {
    op.UpdatePodPolicy? || op.UpdateScionPath?
  }

  function ResultAt(e: Endian, ops: seq<Op>, i: nat): Result
    requires i < |ops|
  {
    Operate(e, OperateAll(e, LOADED, ops[..i]), ops[i]).1
  }

  /** Operation `i` was accepted, is about `s`, and none accepted after it is. */
  ghost predicate LastWord(e: Endian, ops: seq<Op>, s: Subject, i: nat) {
    && i < |ops| && ResultAt(e, ops, i) == Ok && About(ops[i]) == s
    && forall j: nat | i < j < |ops| && ResultAt(e, ops, j) == Ok :: About(ops[j]) != s
  }

  /** The last accepted word about `s` is an update. */
  ghost predicate Stands(e: Endian, ops: seq<Op>, s: Subject, i: nat) {
    LastWord(e, ops, s, i) && Updates(ops[i])
  }

  lemma LastWordGrows(e: Endian, ops: seq<Op>, op: Op, s: Subject, i: nat)
    ensures var all := ops + [op];
            LastWord(e, all, s, i)
            <==> if ResultAt(e, all, |ops|) == Ok && About(op) == s then i == |ops| else LastWord(e, ops, s, i)
  {
    hide Operate; hide OperateAll; hide About;
    var all := ops + [op];
    forall j: nat | j < |ops|
      ensures ResultAt(e, all, j) == ResultAt(e, ops, j) && all[j] == ops[j]
    {
      assert all[..j] == ops[..j];
    }
  }

  lemma StandsGrows(e: Endian, ops: seq<Op>, op: Op, s: Subject, i: nat)
    ensures var all := ops + [op];
            Stands(e, all, s, i)
            <==> if ResultAt(e, all, |ops|) == Ok && About(op) == s then i == |ops| && Updates(op)
                 else Stands(e, ops, s, i)
    ensures i < |ops| ==> (ops + [op])[i] == ops[i]
  {
    LastWordGrows(e, ops, op, s, i);
    hide ResultAt; hide About;
  }

  // ---------------------------------------------------------------------------
  // The table and the history
  // ---------------------------------------------------------------------------

  predicate PodReads(ops: seq<Op>, t: Table, pod: IPv4, i: nat) {
    i < |ops| && pod in t.policyOf && ops[i].UpdatePodPolicy? && t.policyOf[pod] == ops[i].id
  }

  predicate PathReads(ops: seq<Op>, t: Table, id: u32, i: nat) {
    i < |ops| && id in t.pathOf && ops[i].UpdateScionPath? && t.pathOf[id] == ops[i].entry
  }

  lemma ResultIsTables(e: Endian, ops: seq<Op>, op: Op)
    ensures ResultAt(e, ops + [op], |ops|) == Perform(PerformAll(NO_TABLE, ops), op).1
    ensures PerformAll(NO_TABLE, ops + [op]) == Perform(PerformAll(NO_TABLE, ops), op).0
  {
    hide *;
    ResultIsMaps(e, ops, op);
    PerformAllGrows(NO_TABLE, ops, op);
    HistoryRefines(e, ops, [0, 0, 0, 0]);
    DoRefines(e, DoAll(e, NO_MAPS, ops), PerformAll(NO_TABLE, ops), op);
  }

  lemma ResultIsMaps(e: Endian, ops: seq<Op>, op: Op)
    ensures ResultAt(e, ops + [op], |ops|) == Do(e, DoAll(e, NO_MAPS, ops), op).1
  {
    hide Do; hide OperateAll; hide DoAll;
    assert (ops + [op])[..|ops|] == ops;
    OperationsMissIngress(e, ops);
  }

  lemma PerformAllGrows(t: Table, ops: seq<Op>, op: Op)
    ensures PerformAll(t, ops + [op]) == Perform(PerformAll(t, ops), op).0
  {
    hide Perform;
    assert (ops + [op])[..|ops|] == ops;
  }

  function Find<K, V>(m: map<K, V>, k: K): Option<V> {
    if k in m then Some(m[k]) else None
  }

  lemma PutAt<K, V>(m: map<K, V>, k: K, v: V, limit: nat, x: K)
    ensures var (n, r) := Put(m, k, v, limit);
            Find(n, x) == if r == Ok && x == k then Some(v) else Find(m, x)
  {
  }

  lemma DeleteAt<K, V>(m: map<K, V>, k: K, x: K)
    ensures var (n, r) := Delete(m, k);
            Find(n, x) == if r == Ok && x == k then None else Find(m, x)
  {
  }

  /** One operation on the table, as to one pod and one id. */
  lemma PerformAt(t: Table, op: Op, pod: IPv4, id: u32)
    ensures var (u, r) := Perform(t, op);
            && Find(u.policyOf, pod) == (if r == Ok && About(op) == Pod(pod)
                                         then if op.UpdatePodPolicy? then Some(op.id) else None
                                         else Find(t.policyOf, pod))
            && Find(u.pathOf, id) == (if r == Ok && About(op) == Path(id)
                                      then if op.UpdateScionPath? then Some(op.entry) else None
                                      else Find(t.pathOf, id))
    ensures About(op) == Pod(pod) ==> op.UpdatePodPolicy? || op.DeletePodPolicy?
    ensures About(op) == Path(id) ==> op.UpdateScionPath? || op.DeleteScionPath?
  {
    hide Put; hide Delete; hide Find;
    match op
    case UpdatePodPolicy(ip, i) =>
      if To4(ip).Some? {
        PutAt(t.policyOf, To4(ip).value, i, MAX_PODS, pod);
      }
    case DeletePodPolicy(ip) =>
      if To4(ip).Some? {
        DeleteAt(t.policyOf, To4(ip).value, pod);
      }
    case UpdateScionPath(i, entry) => PutAt(t.pathOf, i, entry, MAX_PATHS, id);
    case DeleteScionPath(i) => DeleteAt(t.pathOf, i, id);
  }

  lemma PerformResult(t: Table, op: Op)
    ensures Perform(t, op).1
         == match op
            case UpdatePodPolicy(ip, _) =>
              (match AboutPod(ip)
               case Pod(pod) => if pod !in t.policyOf && |t.policyOf| >= 10000 then MapFull else Ok
               case _ => NotIPv4)
            case DeletePodPolicy(ip) =>
              (match AboutPod(ip)
               case Pod(pod) => if pod in t.policyOf then Ok else NoSuchKey
               case _ => NotIPv4)
            case UpdateScionPath(id, _) => if id !in t.pathOf && |t.pathOf| >= 1024 then MapFull else Ok
            case DeleteScionPath(id) => if id in t.pathOf then Ok else NoSuchKey
  {
  }

  /** The table has a policy for just the pods an update of which stands, and that update's. */
  lemma {:induction false} PodHistory(e: Endian, ops: seq<Op>, pod: IPv4)
    ensures var t := PerformAll(NO_TABLE, ops);
            && (pod in t.policyOf <==> exists i: nat :: Stands(e, ops, Pod(pod), i))
            && (forall i: nat | Stands(e, ops, Pod(pod), i) :: PodReads(ops, t, pod, i))
    decreases |ops|
  {
    hide ResultAt; hide Stands; hide Perform; hide About;
    if ops == [] {
      NothingStands(e, Pod(pod));
    } else {
      var n := |ops| - 1;
      var pre, op := ops[..n], ops[n];
      assert ops == pre + [op];
      PodHistory(e, pre, pod);
      ResultIsTables(e, pre, op);
      PerformAt(PerformAll(NO_TABLE, pre), op, pod, 0);
      forall i: nat
        ensures Stands(e, ops, Pod(pod), i)
                <==> if ResultAt(e, ops, n) == Ok && About(op) == Pod(pod) then i == n && Updates(op)
                     else Stands(e, pre, Pod(pod), i)
        ensures i < n ==> ops[i] == pre[i]
        ensures Stands(e, pre, Pod(pod), i) ==> i < n
      {
        StandsGrows(e, pre, op, Pod(pod), i);
        StandsInside(e, pre, Pod(pod), i);
      }
    }
  }

  lemma NothingStands(e: Endian, s: Subject)
    ensures forall i: nat :: !Stands(e, [], s, i)
  {
  }

  lemma StandsInside(e: Endian, ops: seq<Op>, s: Subject, i: nat)
    ensures Stands(e, ops, s, i) ==> i < |ops|
  {
  }

  lemma {:induction false} PathHistory(e: Endian, ops: seq<Op>, id: u32)
    ensures var t := PerformAll(NO_TABLE, ops);
            && (id in t.pathOf <==> exists i: nat :: Stands(e, ops, Path(id), i))
            && (forall i: nat | Stands(e, ops, Path(id), i) :: PathReads(ops, t, id, i))
    decreases |ops|
  {
    hide ResultAt; hide Stands; hide Perform; hide About;
    if ops == [] {
      NothingStands(e, Path(id));
    } else {
      var n := |ops| - 1;
      var pre, op := ops[..n], ops[n];
      assert ops == pre + [op];
      PathHistory(e, pre, id);
      ResultIsTables(e, pre, op);
      PerformAt(PerformAll(NO_TABLE, pre), op, [0, 0, 0, 0], id);
      forall i: nat
        ensures Stands(e, ops, Path(id), i)
                <==> if ResultAt(e, ops, n) == Ok && About(op) == Path(id) then i == n && Updates(op)
                     else Stands(e, pre, Path(id), i)
        ensures i < n ==> ops[i] == pre[i]
        ensures Stands(e, pre, Path(id), i) ==> i < n
      {
        StandsGrows(e, pre, op, Path(id), i);
        StandsInside(e, pre, Path(id), i);
      }
    }
  }

  // ---------------------------------------------------------------------------
  // What egress selects
  // ---------------------------------------------------------------------------

  /** The last accepted update of the pod, not deleted since, gave it an id, and the last accepted update of that
      id, not deleted since, gave it this entry. */
  ghost predicate Serves(e: Endian, ops: seq<Op>, pod: IPv4, entry: PathEntry) {
    exists i: nat, j: nat ::
      && Stands(e, ops, Pod(pod), i) && ops[i].UpdatePodPolicy?
      && Stands(e, ops, Path(ops[i].id), j) && ops[j].UpdateScionPath? && ops[j].entry == entry
  }

  /** After any operations, accepted or not, on a host of either byte order, egress selects for an address just
      the entry that serves it. */
  lemma SelectedIsServed(e: Endian, ops: seq<Op>, pod: IPv4, entry: PathEntry)
    ensures Select(e, OperateAll(e, LOADED, ops).tc, pod) == Some(entry) <==> Serves(e, ops, pod, entry)
  {
    OperationsMissIngress(e, ops);
    HistoryRefines(e, ops, pod);
    hide ResultAt; hide Select; hide Perform; hide Do; hide About;
    var t := PerformAll(NO_TABLE, ops);
    PodHistory(e, ops, pod);
    if pod in t.policyOf {
      var i: nat :| Stands(e, ops, Pod(pod), i);
      assert PodReads(ops, t, pod, i);
      PathHistory(e, ops, t.policyOf[pod]);
      if t.policyOf[pod] in t.pathOf {
        var j: nat :| Stands(e, ops, Path(t.policyOf[pod]), j);
        assert PathReads(ops, t, t.policyOf[pod], j);
      }
    }
    if Serves(e, ops, pod, entry) {
      var i: nat, j: nat :|
        && Stands(e, ops, Pod(pod), i) && ops[i].UpdatePodPolicy?
        && Stands(e, ops, Path(ops[i].id), j) && ops[j].UpdateScionPath? && ops[j].entry == entry;
      assert PodReads(ops, t, pod, i);
      PathHistory(e, ops, ops[i].id);
      assert PathReads(ops, t, ops[i].id, j);
    }
  }

  // ---------------------------------------------------------------------------
  // Results
  // ---------------------------------------------------------------------------

  /** Every result of an operation after any history, by the pods and ids that stand. */
  lemma ResultsAreExact(e: Endian, ops: seq<Op>, op: Op) returns (pods: set<IPv4>, ids: set<u32>)
    ensures forall pod: IPv4 :: pod in pods <==> exists i: nat :: Stands(e, ops, Pod(pod), i)
    ensures forall id: u32 :: id in ids <==> exists i: nat :: Stands(e, ops, Path(id), i)
    ensures |pods| <= 10000 && |ids| <= 1024
    ensures var r := Operate(e, OperateAll(e, LOADED, ops), op).1;
            match op
            case UpdatePodPolicy(ip, _) =>
              r == (match AboutPod(ip)
                    case Pod(pod) => if pod !in pods && |pods| == 10000 then MapFull else Ok
                    case _ => NotIPv4)
            case DeletePodPolicy(ip) =>
              r == (match AboutPod(ip)
                    case Pod(pod) => if pod in pods then Ok else NoSuchKey
                    case _ => NotIPv4)
            case UpdateScionPath(id, _) => r == if id !in ids && |ids| == 1024 then MapFull else Ok
            case DeleteScionPath(id) => r == if id in ids then Ok else NoSuchKey
  {
    var t := PerformAll(NO_TABLE, ops);
    pods, ids := t.policyOf.Keys, t.pathOf.Keys;
    forall pod: IPv4
      ensures pod in pods <==> exists i: nat :: Stands(e, ops, Pod(pod), i)
    {
      PodHistory(e, ops, pod);
    }
    forall id: u32
      ensures id in ids <==> exists i: nat :: Stands(e, ops, Path(id), i)
    {
      PathHistory(e, ops, id);
    }
    TableIsBounded(e, ops);
    ResultIsTables(e, ops, op);
    assert (ops + [op])[..|ops|] == ops;
    assert ResultAt(e, ops + [op], |ops|) == Operate(e, OperateAll(e, LOADED, ops), op).1;
    PerformResult(t, op);
    hide Stands; hide Operate; hide OperateAll; hide PerformAll; hide Perform; hide AboutPod;
  }

  lemma TableIsBounded(e: Endian, ops: seq<Op>)
    ensures var t := PerformAll(NO_TABLE, ops);
            |t.policyOf| <= 10000 && |t.pathOf| <= 1024
  {
    hide PathAgreesAt;
    HistoryRefines(e, ops, [0, 0, 0, 0]);
  }

  /** Were the maps shared, the local key would be that of the entry that stands for id 0. */
  lemma SharedKeyIsOfPathZero(e: Endian, ops: seq<Op>, key: seq<byte>)
    ensures Ingress.LocalKey(e, Shared(OperateAll(e, LOADED, ops)).xdp) == Some(key)
       <==> exists j: nat :: Stands(e, ops, Path(0), j) && ops[j].UpdateScionPath? && ops[j].entry.macKey == key
  {
    hide Stands; hide Shared; hide OperateAll; hide PerformAll; hide Ingress.LocalKey;
    RoundTrip.LocalKeyWhenShared(e, ops);
    PathHistory(e, ops, 0);
    var t := PerformAll(NO_TABLE, ops);
    if 0 in t.pathOf {
      var j: nat :| Stands(e, ops, Path(0), j);
      assert PathReads(ops, t, 0, j);
    }
    forall j: nat | Stands(e, ops, Path(0), j)
      ensures PathReads(ops, t, 0, j)
    {
    }
    StandInside(e, ops, Path(0));
  }

  lemma StandInside(e: Endian, ops: seq<Op>, s: Subject)
    ensures forall i: nat | Stands(e, ops, s, i) :: i < |ops|
  {
  }

  // ---------------------------------------------------------------------------
  // Frames
  // ---------------------------------------------------------------------------

  /** A frame built of its fields: the Ethernet header, twelve bytes of the IPv4 header, its two addresses, and
      the rest. */
  predicate Built(f: seq<byte>, eth: seq<byte>, ip12: seq<byte>, src: seq<byte>, dst: seq<byte>, rest: seq<byte>) {
    && f == eth + ip12 + src + dst + rest
    && |eth| == 14 && eth[12..14] == [8, 0] && |ip12| == 12 && |src| == 4 && |dst| == 4
    && 14 + 4 * (ip12[0] % 16) <= |f|
  }

  /** Egress goes by the source address of an IPv4 frame, whatever its destination, and by what serves it. */
  lemma EgressGoesBySource(e: Endian, ops: seq<Op>, f: seq<byte>, eth: seq<byte>, ip12: seq<byte>, src: IPv4,
                           dst: seq<byte>, rest: seq<byte>, entry: PathEntry)
    requires Built(f, eth, ip12, src, dst, rest)
    ensures RoundTrip.PathOn(e, ops, f) == Some(entry) <==> Serves(e, ops, src, entry)
  {
    BuiltFields(f, eth, ip12, src, dst, rest);
    SelectedIsServed(e, ops, src, entry);
    hide Serves; hide Select; hide OperateAll; hide Built;
  }

  lemma BuiltFields(f: seq<byte>, eth: seq<byte>, ip12: seq<byte>, src: IPv4, dst: seq<byte>, rest: seq<byte>)
    requires Built(f, eth, ip12, src, dst, rest)
    ensures IsIPv4(f) && SourceOf(f) == src
  {
    assert f[..14] == eth && f[12..14] == f[..14][12..14];
    assert f[14..26] == ip12 && f[14] == f[14..26][0];
    assert f[26..30] == src;
  }

  /** So a frame of an address that nothing serves leaves as it came. */
  lemma UnservedFramesPass(e: Endian, ops: seq<Op>, f: seq<byte>, eth: seq<byte>, ip12: seq<byte>, src: IPv4,
                           dst: seq<byte>, rest: seq<byte>, mac: ScionMac.MacFunction, grant: Grant)
    requires Built(f, eth, ip12, src, dst, rest)
    requires forall entry: PathEntry :: !Serves(e, ops, src, entry)
    ensures Egressed(f, RoundTrip.PathOn(e, ops, f), mac, grant) == (Pass, f)
  {
    var path := RoundTrip.PathOn(e, ops, f);
    if path.Some? {
      EgressGoesBySource(e, ops, f, eth, ip12, src, dst, rest, path.value);
    }
  }

  /** And so does any frame that is no IPv4 frame with the header it announces, whatever was done. */
  lemma OtherFramesPass(e: Endian, ops: seq<Op>, f: seq<byte>, mac: ScionMac.MacFunction, grant: Grant)
    requires |f| < 34 || f[12] != 8 || f[13] != 0 || 14 + 4 * (f[14] % 16) > |f|
    ensures Egressed(f, RoundTrip.PathOn(e, ops, f), mac, grant) == (Pass, f)
  {
    if |f| >= 34 {
      assert f[12..14] == [f[12], f[13]];
      assert [f[12], f[13]][0] == f[12] && [f[12], f[13]][1] == f[13];
    }
  }
}
