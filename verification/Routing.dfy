/** The two bounded kernel maps between the control plane and the datapath, the one table from pod
    address to path that they implement together, and the second instance of them that nobody fills. */
module Routing {
  import opened Options
  import opened Bytes
  import opened Layout
  import opened Codec

  const MAX_PODS := 10000
  const MAX_PATHS := 1024

  datatype Result = Ok | NotIPv4 | MapFull | NoSuchKey

  /** A bounded hash map's Put: a new key does not fit into a full map. */
  function Put<K, V>(m: map<K, V>, k: K, v: V, limit: nat): (map<K, V>, Result) {
    if k !in m && |m| >= limit then (m, MapFull) else (m[k := v], Ok)
  }

  function Delete<K, V>(m: map<K, V>, k: K): (map<K, V>, Result) {
    if k !in m then (m, NoSuchKey) else (m - {k}, Ok)
  }

  datatype Op =
    | UpdatePodPolicy(ip: seq<byte>, id: u32)
    | DeletePodPolicy(ip: seq<byte>)
    | UpdateScionPath(id: u32, entry: PathEntry)
    | DeleteScionPath(id: u32)

  // ---------------------------------------------------------------------------
  // The kernel's maps
  // ---------------------------------------------------------------------------

  /** Keys are what a native load makes of the four address bytes, values are serialised entries. */
  datatype Maps = Maps(pods: map<u32, u32>, paths: map<u32, seq<byte>>)

  const NO_MAPS: Maps := Maps(map[], map[])

  function Do(e: Endian, m: Maps, op: Op): (Maps, Result) {
    match op
    case UpdatePodPolicy(ip, id) =>
      if IPToKey(e, ip).None? then (m, NotIPv4)
      else var (pods, r) := Put(m.pods, IPToKey(e, ip).value, id, MAX_PODS); (m.(pods := pods), r)
    case DeletePodPolicy(ip) =>
      if IPToKey(e, ip).None? then (m, NotIPv4)
      else var (pods, r) := Delete(m.pods, IPToKey(e, ip).value); (m.(pods := pods), r)
    case UpdateScionPath(id, entry) =>
      var (paths, r) := Put(m.paths, id, Marshal(e, entry), MAX_PATHS); (m.(paths := paths), r)
    case DeleteScionPath(id) =>
      var (paths, r) := Delete(m.paths, id); (m.(paths := paths), r)
  }

  /** The datapath's two lookups for a packet's source address. */
  function Select(e: Endian, m: Maps, src: IPv4): Option<PathEntry> {
    var key := Load32(e, src);
    if key !in m.pods then None
    else
      var id := m.pods[key];
      if id !in m.paths || |m.paths[id]| != ENTRY_LEN then None else Some(View(e, m.paths[id]))
  }

  // ---------------------------------------------------------------------------
  // The table they implement
  // ---------------------------------------------------------------------------

  /** Pods by address and paths by policy, with no word of keys, bytes or byte orders. */
  datatype Table = Table(policyOf: map<IPv4, u32>, pathOf: map<u32, PathEntry>)

  const NO_TABLE: Table := Table(map[], map[])

  function Perform(t: Table, op: Op): (Table, Result) {
    match op
    case UpdatePodPolicy(ip, id) =>
      if To4(ip).None? then (t, NotIPv4)
      else var (p, r) := Put(t.policyOf, To4(ip).value, id, MAX_PODS); (t.(policyOf := p), r)
    case DeletePodPolicy(ip) =>
      if To4(ip).None? then (t, NotIPv4)
      else var (p, r) := Delete(t.policyOf, To4(ip).value); (t.(policyOf := p), r)
    case UpdateScionPath(id, entry) =>
      var (p, r) := Put(t.pathOf, id, entry, MAX_PATHS); (t.(pathOf := p), r)
    case DeleteScionPath(id) =>
      var (p, r) := Delete(t.pathOf, id); (t.(pathOf := p), r)
  }

  function PathFor(t: Table, pod: IPv4): Option<PathEntry> {
    if pod in t.policyOf && t.policyOf[pod] in t.pathOf then Some(t.pathOf[t.policyOf[pod]]) else None
  }

  // ---------------------------------------------------------------------------
  // Refinement
  // ---------------------------------------------------------------------------

  ghost predicate PodsAgree(e: Endian, pods: map<u32, u32>, policyOf: map<IPv4, u32>) {
    && |pods| == |policyOf| <= MAX_PODS
    && forall a: IPv4 ::
         && (a in policyOf <==> Load32(e, a) in pods)
         && (a in policyOf ==> pods[Load32(e, a)] == policyOf[a])
  }

  predicate PathAgreesAt(e: Endian, paths: map<u32, seq<byte>>, pathOf: map<u32, PathEntry>, id: u32) {
    && (id in pathOf <==> id in paths)
    && (id in pathOf ==> paths[id] == Marshal(e, pathOf[id]))
  }

  ghost predicate PathsAgree(e: Endian, paths: map<u32, seq<byte>>, pathOf: map<u32, PathEntry>) {
    && |paths| == |pathOf| <= MAX_PATHS
    && forall id: u32 :: PathAgreesAt(e, paths, pathOf, id)
  }

  ghost predicate Refines(e: Endian, m: Maps, t: Table) {
    PodsAgree(e, m.pods, t.policyOf) && PathsAgree(e, m.paths, t.pathOf)
  }

  lemma CardinalityAfter<K, V>(m: map<K, V>, k: K, v: V)
    ensures |m[k := v]| == if k in m then |m| else |m| + 1
    ensures |m - {k}| == if k in m then |m| - 1 else |m|
  {
    assert m[k := v].Keys == m.Keys + {k};
    assert (m - {k}).Keys == m.Keys - {k};
  }

  lemma PodStepAgrees(e: Endian, pods: map<u32, u32>, policyOf: map<IPv4, u32>, a: IPv4, id: u32)
    requires PodsAgree(e, pods, policyOf)
    ensures var (p, r) := Put(pods, Load32(e, a), id, MAX_PODS);
            var (q, s) := Put(policyOf, a, id, MAX_PODS);
            r == s && PodsAgree(e, p, q)
    ensures var (p, r) := Delete(pods, Load32(e, a));
            var (q, s) := Delete(policyOf, a);
            r == s && PodsAgree(e, p, q)
  {
    CardinalityAfter(pods, Load32(e, a), id);
    CardinalityAfter(policyOf, a, id);
    forall b: IPv4 | b != a
      ensures Load32(e, b) != Load32(e, a)
    {
      if Load32(e, b) == Load32(e, a) {
        KeysAreDistinct(e, a, b);
      }
    }
  }

  lemma PathPutAgreesAt(e: Endian, paths: map<u32, seq<byte>>, pathOf: map<u32, PathEntry>, id: u32, entry: PathEntry,
                        i: u32)
    requires PathAgreesAt(e, paths, pathOf, i)
    ensures PathAgreesAt(e, paths[id := Marshal(e, entry)], pathOf[id := entry], i)
  {
    hide Marshal;
  }

  lemma PathPutAgrees(e: Endian, paths: map<u32, seq<byte>>, pathOf: map<u32, PathEntry>, id: u32, entry: PathEntry)
    requires PathsAgree(e, paths, pathOf)
    ensures var (p, r) := Put(paths, id, Marshal(e, entry), MAX_PATHS);
            var (q, s) := Put(pathOf, id, entry, MAX_PATHS);
            r == s && PathsAgree(e, p, q)
  {
    var p, q := paths[id := Marshal(e, entry)], pathOf[id := entry];
    CardinalityAfter(paths, id, Marshal(e, entry));
    CardinalityAfter(pathOf, id, entry);
    assert PathAgreesAt(e, paths, pathOf, id);
    assert id in paths <==> id in pathOf;
    forall i: u32
      ensures PathAgreesAt(e, p, q, i)
    {
      assert PathAgreesAt(e, paths, pathOf, i);
      PathPutAgreesAt(e, paths, pathOf, id, entry, i);
    }
    hide PathAgreesAt; hide Marshal;
  }

  lemma PathDeleteAgrees(e: Endian, paths: map<u32, seq<byte>>, pathOf: map<u32, PathEntry>, id: u32)
    requires PathsAgree(e, paths, pathOf)
    ensures var (p, r) := Delete(paths, id);
            var (q, s) := Delete(pathOf, id);
            r == s && PathsAgree(e, p, q)
  {
    hide Marshal;
    var p, q := paths - {id}, pathOf - {id};
    assert PathAgreesAt(e, paths, pathOf, id);
    forall i: u32
      ensures PathAgreesAt(e, p, q, i)
    {
      assert PathAgreesAt(e, paths, pathOf, i);
    }
    if id in paths {
      CardinalityAfter(paths, id, paths[id]);
      CardinalityAfter(pathOf, id, pathOf[id]);
    }
  }

  /** One operation: the same result on both sides, and the maps still implement the table. */
  lemma DoRefines(e: Endian, m: Maps, t: Table, op: Op)
    requires Refines(e, m, t)
    ensures Do(e, m, op).1 == Perform(t, op).1
    ensures Refines(e, Do(e, m, op).0, Perform(t, op).0)
  {
    hide Marshal; hide PodsAgree; hide PathsAgree;
    match op
    case UpdatePodPolicy(ip, id) =>
      if To4(ip).Some? {
        PodStepAgrees(e, m.pods, t.policyOf, To4(ip).value, id);
      }
    case DeletePodPolicy(ip) =>
      if To4(ip).Some? {
        PodStepAgrees(e, m.pods, t.policyOf, To4(ip).value, 0);
      }
    case UpdateScionPath(id, entry) => PathPutAgrees(e, m.paths, t.pathOf, id, entry);
    case DeleteScionPath(id) => PathDeleteAgrees(e, m.paths, t.pathOf, id);
  }

  lemma SelectRefines(e: Endian, m: Maps, t: Table, src: IPv4)
    requires Refines(e, m, t)
    ensures Select(e, m, src) == PathFor(t, src)
  {
    if src in t.policyOf {
      assert PathAgreesAt(e, m.paths, t.pathOf, t.policyOf[src]);
    }
    if src in t.policyOf && t.policyOf[src] in t.pathOf {
      EntryRoundTrip(e, t.pathOf[t.policyOf[src]]);
    }
  }

  function DoAll(e: Endian, m: Maps, ops: seq<Op>): Maps {
    if ops == [] then m else Do(e, DoAll(e, m, ops[..|ops| - 1]), ops[|ops| - 1]).0
  }

  function PerformAll(t: Table, ops: seq<Op>): Table {
    if ops == [] then t else Perform(PerformAll(t, ops[..|ops| - 1]), ops[|ops| - 1]).0
  }

  /** After any operations, failed ones included, on a host of either byte order, the datapath picks
      for every source address exactly the path the table has for that pod. */
  lemma {:induction false} HistoryRefines(e: Endian, ops: seq<Op>, src: IPv4)
    ensures Refines(e, DoAll(e, NO_MAPS, ops), PerformAll(NO_TABLE, ops))
    ensures Select(e, DoAll(e, NO_MAPS, ops), src) == PathFor(PerformAll(NO_TABLE, ops), src)
  {
    if ops != [] {
      var n := |ops| - 1;
      HistoryRefines(e, ops[..n], src);
      DoRefines(e, DoAll(e, NO_MAPS, ops[..n]), PerformAll(NO_TABLE, ops[..n]), ops[n]);
    }
    SelectRefines(e, DoAll(e, NO_MAPS, ops), PerformAll(NO_TABLE, ops), src);
  }

  // ---------------------------------------------------------------------------
  // The two instances of the maps
  // ---------------------------------------------------------------------------

  /** What a node's kernel holds: each of the two programs was loaded with maps of its own. */
  datatype Kernel = Kernel(tc: Maps, xdp: Maps)

  const LOADED: Kernel := Kernel(NO_MAPS, NO_MAPS)

  /** The loader's operations write the TC program's maps. */
  function Operate(e: Endian, k: Kernel, op: Op): (Kernel, Result) {
    var (m, r) := Do(e, k.tc, op);
    (k.(tc := m), r)
  }

  function OperateAll(e: Endian, k: Kernel, ops: seq<Op>): Kernel {
    if ops == [] then k else Operate(e, OperateAll(e, k, ops[..|ops| - 1]), ops[|ops| - 1]).0
  }

  /** The kernel if both programs were given one instance of the maps, the TC program's. */
  function Shared(k: Kernel): Kernel {
    k.(xdp := k.tc)
  }

  /** Whatever the loader does, the XDP program's maps stay as they were loaded: empty. */
  lemma {:induction false} OperationsMissIngress(e: Endian, ops: seq<Op>)
    ensures OperateAll(e, LOADED, ops) == Kernel(DoAll(e, NO_MAPS, ops), NO_MAPS)
  {
    hide Do;
    if ops != [] {
      OperationsMissIngress(e, ops[..|ops| - 1]);
    }
  }

  // ---------------------------------------------------------------------------
  // The loader
  // ---------------------------------------------------------------------------

  /** The Go side: it holds the maps of both programs and changes the TC program's one call at a time. */
  class Loader {
    const endian: Endian
    var tcPodPolicyMap: map<u32, u32>
    var tcScionPathCache: map<u32, seq<byte>>
    var xdpPodPolicyMap: map<u32, u32>
    var xdpScionPathCache: map<u32, seq<byte>>
    ghost var table: Table

    ghost predicate Valid()
      reads this
    {
      Refines(endian, TcMaps(), table) && XdpMaps() == NO_MAPS
    }

    function TcMaps(): Maps
      reads this
    {
      Maps(tcPodPolicyMap, tcScionPathCache)
    }

    function XdpMaps(): Maps
      reads this
    {
      Maps(xdpPodPolicyMap, xdpScionPathCache)
    }

    constructor (endian: Endian)
      ensures Valid() && this.endian == endian && table == NO_TABLE
    {
      this.endian := endian;
      tcPodPolicyMap, tcScionPathCache := map[], map[];
      xdpPodPolicyMap, xdpScionPathCache := map[], map[];
      table := NO_TABLE;
    }

    method UpdatePodPolicy(ip: seq<byte>, id: u32) returns (r: Result)
      requires Valid()
      modifies this`tcPodPolicyMap, this`table
      ensures Valid()
      ensures (table, r) == Perform(old(table), Op.UpdatePodPolicy(ip, id))
      ensures r == NotIPv4 <==> To4(ip).None?
      ensures table == if r == Ok then old(table).(policyOf := old(table).policyOf[To4(ip).value := id]) else old(table)
      ensures r == MapFull <==> To4(ip).Some? && To4(ip).value !in old(table).policyOf && |old(table).policyOf| == 10000
      ensures r != NoSuchKey
    {
      DoRefines(endian, TcMaps(), table, Op.UpdatePodPolicy(ip, id));
      hide Refines; hide Marshal;
      var key := IPToKey(endian, ip);
      if key.None? {
        return NotIPv4;
      }
      table := Perform(table, Op.UpdatePodPolicy(ip, id)).0;
      if key.value !in tcPodPolicyMap && |tcPodPolicyMap| >= MAX_PODS {
        return MapFull;
      }
      tcPodPolicyMap := tcPodPolicyMap[key.value := id];
      r := Ok;
    }

    method DeletePodPolicy(ip: seq<byte>) returns (r: Result)
      requires Valid()
      modifies this`tcPodPolicyMap, this`table
      ensures Valid()
      ensures (table, r) == Perform(old(table), Op.DeletePodPolicy(ip))
      ensures r == NotIPv4 <==> To4(ip).None?
      ensures table == if r == Ok then old(table).(policyOf := old(table).policyOf - {To4(ip).value}) else old(table)
      ensures r == NoSuchKey <==> To4(ip).Some? && To4(ip).value !in old(table).policyOf
      ensures r != MapFull
    {
      DoRefines(endian, TcMaps(), table, Op.DeletePodPolicy(ip));
      hide Refines; hide Marshal;
      var key := IPToKey(endian, ip);
      if key.None? {
        return NotIPv4;
      }
      table := Perform(table, Op.DeletePodPolicy(ip)).0;
      if key.value !in tcPodPolicyMap {
        return NoSuchKey;
      }
      tcPodPolicyMap := tcPodPolicyMap - {key.value};
      r := Ok;
    }

    method UpdateScionPath(id: u32, entry: PathEntry) returns (r: Result)
      requires Valid()
      modifies this`tcScionPathCache, this`table
      ensures Valid()
      ensures (table, r) == Perform(old(table), Op.UpdateScionPath(id, entry))
      ensures table == if r == Ok then old(table).(pathOf := old(table).pathOf[id := entry]) else old(table)
      ensures r == if id !in old(table).pathOf && |old(table).pathOf| == 1024 then MapFull else Ok
    {
      DoRefines(endian, TcMaps(), table, Op.UpdateScionPath(id, entry));
      hide Refines; hide Marshal;
      table := Perform(table, Op.UpdateScionPath(id, entry)).0;
      if id !in tcScionPathCache && |tcScionPathCache| >= MAX_PATHS {
        return MapFull;
      }
      tcScionPathCache := tcScionPathCache[id := Marshal(endian, entry)];
      r := Ok;
    }

    method DeleteScionPath(id: u32) returns (r: Result)
      requires Valid()
      modifies this`tcScionPathCache, this`table
      ensures Valid()
      ensures (table, r) == Perform(old(table), Op.DeleteScionPath(id))
      ensures table == if r == Ok then old(table).(pathOf := old(table).pathOf - {id}) else old(table)
      ensures r == if id in old(table).pathOf then Ok else NoSuchKey
    {
      DoRefines(endian, TcMaps(), table, Op.DeleteScionPath(id));
      hide Refines; hide Marshal;
      table := Perform(table, Op.DeleteScionPath(id)).0;
      if id !in tcScionPathCache {
        return NoSuchKey;
      }
      tcScionPathCache := tcScionPathCache - {id};
      r := Ok;
    }
  }
}
