/** The reconciler as a protocol: any number of runs in flight, each API call its own step that
    may fail or be lost, reads that may be stale, and users, peers, foreign controllers and the
    garbage collector acting in between. */
module Protocol {
  import opened Options
  import opened Kube
  import opened Reconciling

  datatype Run = Run(key: Key, phase: Phase)

  /** `policyLog` and `pathLog` hold every version ever stored, which is what a cached read may
      return; `peerNames` every name a peer ever had; `issued` every uid with the policy name it
      was issued to; `foreign` the uids of live owners of other kinds. */
  datatype State = State(
    cluster: Cluster,
    policyLog: set<(Key, Policy)>, pathLog: set<(Key, ComputedPath)>,
    peerNames: set<string>, issued: set<(nat, Key)>, nextUid: nat,
    foreign: set<nat>, runs: seq<Run>)

  const Init: State := State(Cluster(map[], [], map[], 0), {}, {}, {}, {}, 0, {}, [])

  datatype Event =
    // users, operators of other objects, the garbage collector
    | CreatePolicy(key: Key, spec: PolicySpec)
    | EditPolicy(key: Key, spec: PolicySpec)
    | DeletePolicy(key: Key)
    | SetFinalizers(key: Key, finalizers: set<string>)
    | AddPeer(peer: Peer)
    | RemovePeer(index: nat)
    | ForeignWrite(at: Key, owners: seq<OwnerRef>, spec2: PathSpec)
    | ForeignDelete(at: Key)
    | ForeignOwners(uids: set<nat>)
    | Collect(at: Key)
    // the reconciler
    | Begin(key: Key)
    | Get(run: nat, seen: Option<Policy>)
    | Put(run: nat, fault: Fault)
    | List(run: nat, peers: seq<Peer>)
    | Fetch(run: nat, answer: Answer)
    | Probe(run: nat, found: Option<ComputedPath>)
    | Write(run: nat, fault: Fault)
    | Report(run: nat, fault: Fault)
    | Abort(run: nat)

  predicate IsRunStep(e: Event) {
    e.Get? || e.Put? || e.List? || e.Fetch? || e.Probe? || e.Write? || e.Report? || e.Abort?
  }

  predicate PolicyControlled(v: ComputedPath) {
    var c := ControllerOf(v.owners);
    c.Some? && c.value.kind == ScionPathPolicy
  }

  /** The owner a reference in namespace `ns` points to exists, under the same uid. */
  predicate Alive(s: State, ns: string, ref: OwnerRef) {
    match ref.kind
    case ScionPathPolicy =>
      var k := Key(ns, ref.name);
      k in s.cluster.policies && s.cluster.policies[k].uid == ref.uid
    case OtherKind(_) => ref.uid in s.foreign
  }

  /** The garbage collector deletes an object that has owners, none of which exists. */
  predicate Orphan(s: State, at: Key)
    requires at in s.cluster.paths
  {
    var owners := s.cluster.paths[at].owners;
    owners != [] && forall r <- owners :: !Alive(s, at.ns, r)
  }

  predicate Enabled(s: State, e: Event) {
    var c := s.cluster;
    match e
    case CreatePolicy(k, _) => k !in c.policies
    case EditPolicy(k, _) => k in c.policies
    case DeletePolicy(k) => k in c.policies && !c.policies[k].deleting
    case SetFinalizers(k, fs) =>
      k in c.policies && (c.policies[k].deleting ==> fs <= c.policies[k].finalizers)
    case AddPeer(_) => true
    case RemovePeer(i) => i < |c.peers|
    case ForeignWrite(at, owners, spec) =>
      && (at in c.paths ==> !PolicyControlled(c.paths[at]))
      && Controllers(owners) <= 1
      && !PolicyControlled(ComputedPath(0, owners, spec))
    case ForeignDelete(at) => at in c.paths
    case ForeignOwners(_) => true
    case Collect(at) => at in c.paths && Orphan(s, at)
    case Begin(_) => true
    case _ => e.run < |s.runs| && RunStepEnabled(s, s.runs[e.run], e)
  }

  /** A run does the call its phase is at. A cached Get or probe answers with nothing or with any
      version of the object there ever was; a cached List with any peers there ever were. */
  predicate RunStepEnabled(s: State, r: Run, e: Event) {
    match r.phase
    case Reading => e.Abort? || (e.Get? && (e.seen.Some? ==> (r.key, e.seen.value) in s.policyLog))
    case Updating(_, _) => e.Abort? || e.Put?
    case Listing(_) => e.Abort? || (e.List? && forall p <- e.peers :: p.name in s.peerNames)
    case Fetching(w) => e.Abort? || (e.Fetch? && w.More())
    case Probing(w, a) =>
      e.Abort? || (e.Probe? && w.More() && a.Ready?
                   && (e.found.Some? ==> (PathKey(r.key, w.Peer()), e.found.value) in s.pathLog))
    case Writing(w, _, _, _) => e.Abort? || (e.Write? && w.More())
    case Reporting(_) => e.Abort? || e.Report?
    case Finished(_) => false
  }

  function Entries<V(==,!new)>(m: map<Key, V>): (r: set<(Key, V)>)
    ensures forall x :: x in r <==> x.0 in m && m[x.0] == x.1
  {
    set k | k in m :: (k, m[k])
  }

  /** The state after the cluster moved to `c`: whatever `c` stores is logged. */
  function Record(s: State, c: Cluster): State {
    s.(cluster := c, policyLog := s.policyLog + Entries(c.policies), pathLog := s.pathLog + Entries(c.paths))
  }

  function Moved(s: State, run: nat, phase: Phase): State
    requires run < |s.runs|
  {
    s.(runs := s.runs[run := s.runs[run].(phase := phase)])
  }

  function WriteEffect(c: Cluster, key: Key, phase: Phase): Option<Cluster>
    requires phase.Writing? && phase.work.More()
  {
    StorePath(c, PathKey(key, phase.work.Peer()), phase.base, phase.obj)
  }

  function Apply(s: State, e: Event): State
    requires Enabled(s, e)
  {
    var c := s.cluster;
    match e
    case CreatePolicy(k, spec) =>
      Record(s, PutPolicy(c, k, Policy(s.nextUid, 0, 1, false, {}, spec, map[])))
        .(issued := s.issued + {(s.nextUid, k)}, nextUid := s.nextUid + 1)
    case EditPolicy(k, spec) =>
      var p := c.policies[k];
      if p.spec == spec then s
      else Record(s, PutPolicy(c, k, p.(spec := spec, generation := p.generation + 1)))
    case DeletePolicy(k) =>
      var p := c.policies[k];
      if p.finalizers == {} then Record(s, DropPolicy(c, k))
      else Record(s, PutPolicy(c, k, p.(deleting := true, generation := p.generation + 1)))
    case SetFinalizers(k, fs) =>
      var p := c.policies[k];
      if p.deleting && fs == {} then Record(s, DropPolicy(c, k))
      else Record(s, PutPolicy(c, k, p.(finalizers := fs)))
    case AddPeer(p) => s.(cluster := c.(peers := c.peers + [p]), peerNames := s.peerNames + {p.name})
    case RemovePeer(i) => s.(cluster := c.(peers := c.peers[..i] + c.peers[i + 1..]))
    case ForeignWrite(at, owners, spec) => Record(s, PutPath(c, at, ComputedPath(0, owners, spec)))
    case ForeignDelete(at) => Record(s, DropPath(c, at))
    case ForeignOwners(uids) => s.(foreign := uids)
    case Collect(at) => Record(s, DropPath(c, at))
    case Begin(k) => s.(runs := s.runs + [Run(k, Reading)])
    case _ => ApplyRunStep(s, e)
  }

  function ApplyRunStep(s: State, e: Event): State
    requires IsRunStep(e) && Enabled(s, e)
  {
    var c := s.cluster;
    var r := s.runs[e.run];
    match e
    case Get(i, seen) => Moved(s, i, AfterGet(seen))
    case Put(i, fault) =>
      var (c', ok) := Send(c, UpdatePolicy(c, r.key, r.phase.next), fault);
      Moved(Record(s, c'), i, Finished(if ok then Done else Failed(ApiError)))
    case List(i, peers) => Moved(s, i, LoopHead(Work(r.key, r.phase.snap, peers, [])))
    case Fetch(i, a) => Moved(s, i, AfterFetch(r.phase.work, a))
    case Probe(i, found) =>
      Moved(s, i, AfterProbe(r.phase.work, r.phase.answer, found))
    case Write(i, fault) =>
      var (c', ok) := Send(c, WriteEffect(c, r.key, r.phase), fault);
      Moved(Record(s, c'), i,
            if ok then LoopHead(r.phase.work.Then(r.phase.answer)) else Finished(Failed(ApiError)))
    case Report(i, fault) =>
      var (c', ok) := Send(c, UpdateStatus(c, r.key, Activated(r.phase.work)), fault);
      Moved(Record(s, c'), i, Finished(if ok then Done else Failed(ApiError)))
    case Abort(i) => Moved(s, i, Finished(Failed(ApiError)))
  }

  /** `es` can happen, in this order, from `s`. */
  predicate Behaviour(s: State, es: seq<Event>)
    decreases |es|
  {
    es == [] || (Enabled(s, es[0]) && Behaviour(Apply(s, es[0]), es[1..]))
  }

  function After(s: State, es: seq<Event>): State
    requires Behaviour(s, es)
    decreases |es|
  {
    if es == [] then s else After(Apply(s, es[0]), es[1..])
  }

  lemma Cons(s: State, e: Event, es: seq<Event>)
    requires Enabled(s, e) && Behaviour(Apply(s, e), es)
    ensures Behaviour(s, [e] + es) && After(s, [e] + es) == After(Apply(s, e), es)
  {
    hide Enabled; hide Apply;
    assert ([e] + es)[1..] == es;
  }

  lemma {:induction false} BehaviourConcat(s: State, es: seq<Event>, fs: seq<Event>)
    requires Behaviour(s, es) && Behaviour(After(s, es), fs)
    ensures Behaviour(s, es + fs) && After(s, es + fs) == After(After(s, es), fs)
    decreases |es|
  {
    hide Enabled; hide Apply;
    if es == [] {
      assert es + fs == fs;
    } else {
      BehaviourConcat(Apply(s, es[0]), es[1..], fs);
      assert (es + fs)[1..] == es[1..] + fs;
    }
  }

  // ---------------------------------------------------------------------------
  // Each run step by itself
  // ---------------------------------------------------------------------------

  predicate At(s: State, i: nat, key: Key, phase: Phase) {
    i < |s.runs| && s.runs[i] == Run(key, phase)
  }

  lemma BeginStep(s: State, key: Key)
    ensures Enabled(s, Begin(key))
    ensures Apply(s, Begin(key)) == s.(runs := s.runs + [Run(key, Reading)])
  {
  }

  lemma GetStep(s: State, i: nat, key: Key, seen: Option<Policy>)
    requires At(s, i, key, Reading) && (seen.Some? ==> (key, seen.value) in s.policyLog)
    ensures Enabled(s, Get(i, seen)) && Apply(s, Get(i, seen)) == Moved(s, i, AfterGet(seen))
  {
  }

  lemma PutStep(s: State, i: nat, key: Key, snap: Policy, next: Policy, fault: Fault)
    requires At(s, i, key, Updating(snap, next))
    ensures Enabled(s, Put(i, fault))
    ensures var (c, ok) := Send(s.cluster, UpdatePolicy(s.cluster, key, next), fault);
            Apply(s, Put(i, fault)) == Moved(Record(s, c), i, Finished(if ok then Done else Failed(ApiError)))
  {
  }

  lemma ListStep(s: State, i: nat, key: Key, snap: Policy, peers: seq<Peer>)
    requires At(s, i, key, Listing(snap)) && forall p <- peers :: p.name in s.peerNames
    ensures Enabled(s, List(i, peers))
    ensures Apply(s, List(i, peers)) == Moved(s, i, LoopHead(Work(key, snap, peers, [])))
  {
  }

  lemma FetchStep(s: State, i: nat, key: Key, w: Work, a: Answer)
    requires At(s, i, key, Fetching(w)) && w.More()
    ensures Enabled(s, Fetch(i, a)) && Apply(s, Fetch(i, a)) == Moved(s, i, AfterFetch(w, a))
  {
  }

  lemma ProbeStep(s: State, i: nat, key: Key, w: Work, a: Answer, found: Option<ComputedPath>)
    requires At(s, i, key, Probing(w, a)) && w.More() && a.Ready?
    requires found.Some? ==> (PathKey(key, w.Peer()), found.value) in s.pathLog
    ensures Enabled(s, Probe(i, found)) && Apply(s, Probe(i, found)) == Moved(s, i, AfterProbe(w, a, found))
  {
  }

  lemma WriteStep(s: State, i: nat, key: Key, w: Work, a: Answer, base: Option<ComputedPath>, obj: ComputedPath,
                  fault: Fault)
    requires At(s, i, key, Writing(w, a, base, obj)) && w.More()
    ensures Enabled(s, Write(i, fault))
    ensures var (c, ok) := Send(s.cluster, StorePath(s.cluster, PathKey(key, w.Peer()), base, obj), fault);
            Apply(s, Write(i, fault))
            == Moved(Record(s, c), i, if ok then LoopHead(w.Then(a)) else Finished(Failed(ApiError)))
  {
  }

  lemma ReportStep(s: State, i: nat, key: Key, w: Work, fault: Fault)
    requires At(s, i, key, Reporting(w))
    ensures Enabled(s, Report(i, fault))
    ensures var (c, ok) := Send(s.cluster, UpdateStatus(s.cluster, key, Activated(w)), fault);
            Apply(s, Report(i, fault)) == Moved(Record(s, c), i, Finished(if ok then Done else Failed(ApiError)))
  {
  }

  lemma AbortStep(s: State, i: nat, key: Key, phase: Phase)
    requires At(s, i, key, phase) && !phase.Finished?
    ensures Enabled(s, Abort(i)) && Apply(s, Abort(i)) == Moved(s, i, Finished(Failed(ApiError)))
  {
  }
}
