/** The decisions of `ScionPathPolicyReconciler.Reconcile` between its API calls, and one whole
    run of it, alone, as a function of the cluster it starts in. */
module Reconciling {
  import opened Options
  import opened Bytes
  import opened Naming
  import opened Kube

  const FINALIZER: string := "cilion.io/policy-finalizer"
  const ACTIVE: string := "Active"
  const REASON: string := "PathsComputed"

  /** What the SCION control service says about one destination. */
  datatype Answer = Ready(hopFields: seq<byte>, nextHopIP: string) | NotReady | Unreachable

  datatype Error = ApiError | FetchError | AlreadyOwned | NilPreference

  datatype Outcome = Done | Requeue | Failed(error: Error)

  /** A run inside the peer loop: the policy as it was read, the peers as they were listed, and
      the answers of the peers already dealt with. */
  datatype Work = Work(key: Key, snap: Policy, peers: seq<Peer>, got: seq<Answer>) {
    predicate AllReady() {
      forall a <- got :: a.Ready?
    }
    predicate More() {
      |got| < |peers|
    }
    function Peer(): Peer
      requires More()
    {
      peers[|got|]
    }
    function Then(a: Answer): Work {
      this.(got := got + [a])
    }
  }

  datatype Phase =
    | Reading
    | Updating(snap: Policy, next: Policy)
    | Listing(snap: Policy)
    | Fetching(work: Work)
    | Probing(work: Work, answer: Answer)
    | Writing(work: Work, answer: Answer, base: Option<ComputedPath>, obj: ComputedPath)
    | Reporting(work: Work)
    | Finished(outcome: Outcome)

  /** Lines 58-84: the finalizer phases. */
  function AfterGet(seen: Option<Policy>): Phase {
    match seen
    case None => Finished(Done)
    case Some(p) =>
      if p.deleting then
        if FINALIZER in p.finalizers then Updating(p, p.(finalizers := p.finalizers - {FINALIZER}))
        else Finished(Done)
      else if FINALIZER !in p.finalizers then
        Updating(p, p.(finalizers := p.finalizers + {FINALIZER}))
      else Listing(p)
  }

  /** The head of the peer loop: next peer, requeue, or status. Asking for the next peer
      dereferences the optional preference. */
  function LoopHead(w: Work): Phase {
    if w.More() then
      if w.snap.spec.preference.None? then Finished(Failed(NilPreference)) else Fetching(w)
    else if w.AllReady() then Reporting(w)
    else Finished(Requeue)
  }

  function AfterFetch(w: Work, a: Answer): Phase {
    match a
    case Unreachable => Finished(Failed(FetchError))
    case NotReady => LoopHead(w.Then(a))
    case Ready(_, _) => Probing(w, a)
  }

  function PathKey(policy: Key, peer: Peer): Key {
    Key(policy.ns, ComputedPathName(policy.name, peer.name))
  }

  /** Object names mention only the peer's name, though peers are listed in every namespace. */
  predicate DistinctNames(peers: seq<Peer>) {
    forall i, j | 0 <= i < j < |peers| :: peers[i].name != peers[j].name
  }

  function OwnerOf(policy: Key, snap: Policy): OwnerRef {
    OwnerRef(ScionPathPolicy, policy.name, snap.uid, true)
  }

  function Target(policy: Key, peer: Peer, a: Answer): PathSpec
    requires a.Ready?
  {
    PathSpec(policy.name, peer.podCIDR, a.nextHopIP, a.hopFields)
  }

  function Owners(base: Option<ComputedPath>): seq<OwnerRef> {
    match base
    case None => []
    case Some(v) => v.owners
  }

  /** The mutate closure of CreateOrUpdate; `None` is the AlreadyOwnedError. */
  function Mutated(base: Option<ComputedPath>, ref: OwnerRef, spec: PathSpec): Option<ComputedPath> {
    if OwnedByAnother(Owners(base), ref) then None
    else Some(ComputedPath(if base.Some? then base.value.rv else 0, Upsert(Owners(base), ref), spec))
  }

  /** CreateOrUpdate after its Get: an unchanged object is not written. */
  function AfterProbe(w: Work, a: Answer, found: Option<ComputedPath>): Phase
    requires w.More() && a.Ready?
  {
    var obj := Mutated(found, OwnerOf(w.key, w.snap), Target(w.key, w.Peer(), a));
    if obj.None? then Finished(Failed(AlreadyOwned))
    else if found == obj then LoopHead(w.Then(a))
    else Writing(w, a, found, obj.value)
  }

  function ActiveCondition(w: Work): Condition {
    Condition(true, REASON, |w.peers|, w.snap.generation)
  }

  function Activated(w: Work): Policy {
    w.snap.(conditions := w.snap.conditions[ACTIVE := ActiveCondition(w)])
  }

  // ---------------------------------------------------------------------------
  // One run, alone
  // ---------------------------------------------------------------------------

  /** Everything outside the cluster that one run meets: the answers of the control service and
      the faults of its API calls, each by the index of the peer it concerns. */
  datatype World = World(
    fetch: (nat, string, string) -> Answer,
    getFails: bool, update: Fault, listFails: bool,
    probeFails: nat -> bool, write: nat -> Fault, status: Fault)

  function AnswerFor(w: Work, world: World): Answer
    requires w.More() && w.snap.spec.preference.Some?
  {
    world.fetch(|w.got|, w.Peer().remoteAS, w.snap.spec.preference.value)
  }

  /** CreateOrUpdate of the current peer's path: the cluster and, if it failed, the error. */
  function CreateOrUpdate(c: Cluster, w: Work, a: Answer, world: World): (Cluster, Option<Error>)
    requires w.More() && a.Ready?
  {
    var k := PathKey(w.key, w.Peer());
    if world.probeFails(|w.got|) then (c, Some(ApiError))
    else
      var found := Find(c.paths, k);
      var obj := Mutated(found, OwnerOf(w.key, w.snap), Target(w.key, w.Peer(), a));
      if obj.None? then (c, Some(AlreadyOwned))
      else if found == obj then (c, None)
      else
        var (c', ok) := Send(c, StorePath(c, k, found, obj.value), world.write(|w.got|));
        (c', if ok then None else Some(ApiError))
  }

  /** Lines 96-156: the peer loop and what follows it. */
  function PeerLoop(c: Cluster, w: Work, world: World): (Cluster, Outcome)
    requires |w.got| <= |w.peers|
    decreases |w.peers| - |w.got|
  {
    if !w.More() then
      if !w.AllReady() then (c, Requeue)
      else
        var (c', ok) := Send(c, UpdateStatus(c, w.key, Activated(w)), world.status);
        (c', if ok then Done else Failed(ApiError))
    else if w.snap.spec.preference.None? then (c, Failed(NilPreference))
    else
      var a := AnswerFor(w, world);
      match a
      case Unreachable => (c, Failed(FetchError))
      case NotReady => PeerLoop(c, w.Then(a), world)
      case Ready(_, _) =>
        var (c', e) := CreateOrUpdate(c, w, a, world);
        if e.Some? then (c', Failed(e.value)) else PeerLoop(c', w.Then(a), world)
  }

  function Reconcile(c: Cluster, key: Key, world: World): (Cluster, Outcome) {
    if world.getFails then (c, Failed(ApiError))
    else match AfterGet(Find(c.policies, key))
      case Finished(o) => (c, o)
      case Updating(snap, next) =>
        var (c', ok) := Send(c, UpdatePolicy(c, key, next), world.update);
        (c', if ok then Done else Failed(ApiError))
      case Listing(snap) =>
        if world.listFails then (c, Failed(ApiError))
        else PeerLoop(c, Work(key, snap, c.peers, []), world)
      case _ => assert false; (c, Done)
  }
}
