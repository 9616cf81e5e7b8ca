/** What runs do, said in fields, names and literals only: what a stored path holds, how far a run got, and what
    each outcome tells about the answers of the control service and about the cluster. */
module RunFacts {
  import opened Options
  import opened Naming
  import opened Kube
  import opened Reconciling
  import opened Protocol
  import opened Safety

  // ---------------------------------------------------------------------------
  // One CreateOrUpdate
  // ---------------------------------------------------------------------------

  /** CreateOrUpdate without an error: the path under the policy's and the peer's name holds that peer's CIDR and
      that answer, the policy controls it and the other owners are as before, and nothing else changed. */
  lemma CreateOrUpdateStores(c: Cluster, w: Work, a: Answer, world: World)
    requires w.More() && a.Ready? && CreateOrUpdate(c, w, a, world).1.None?
    ensures var d := CreateOrUpdate(c, w, a, world).0;
            var at := Key(w.key.ns, w.key.name + "-to-" + w.peers[|w.got|].name);
            var ref := OwnerRef(ScionPathPolicy, w.key.name, w.snap.uid, true);
            && at in d.paths
            && d.paths[at].spec.policyRef == w.key.name
            && d.paths[at].spec.destinationCidr == w.peers[|w.got|].podCIDR
            && d.paths[at].spec.nextHopIP == a.nextHopIP
            && d.paths[at].spec.hopFields == a.hopFields
            && ref in d.paths[at].owners
            && (at !in c.paths ==> d.paths[at].owners == [ref])
            && (at in c.paths ==> d.paths[at].owners == WithReference(c.paths[at].owners, ref))
            && d == c.(paths := c.paths[at := d.paths[at]], nextRv := d.nextRv)
  {
    hide Upsert; hide WithReference; hide OwnedByAnother; hide Controllers;
    var found := Find(c.paths, PathKey(w.key, w.Peer()));
    assert WithReference([], OwnerOf(w.key, w.snap)) == [OwnerOf(w.key, w.snap)] by {
      NoOwnersYet(OwnerOf(w.key, w.snap));
    }
    UpsertIsWithReference(Owners(found), OwnerOf(w.key, w.snap));
    UpsertHas(Owners(found), OwnerOf(w.key, w.snap));
  }

  lemma NoOwnersYet(ref: OwnerRef)
    ensures WithReference([], ref) == [ref]
  {
  }

  /** The owners with the first reference of that kind and name replaced, or the new one at the end. */
  function WithReference(owners: seq<OwnerRef>, ref: OwnerRef): seq<OwnerRef> {
    var i := FirstOf(owners, ref.kind, ref.name);
    if i < |owners| then owners[i := ref] else owners + [ref]
  }

  /** The first index of an owner of that kind and name, or the length. */
  function FirstOf(owners: seq<OwnerRef>, kind: OwnerKind, name: string): (i: nat)
    ensures i <= |owners|
    ensures i < |owners| ==> owners[i].kind == kind && owners[i].name == name
    ensures forall j | 0 <= j < i :: owners[j].kind != kind || owners[j].name != name
  {
    if owners == [] || (owners[0].kind == kind && owners[0].name == name) then 0
    else 1 + FirstOf(owners[1..], kind, name)
  }

  lemma {:induction false} UpsertIsWithReference(owners: seq<OwnerRef>, ref: OwnerRef)
    ensures Upsert(owners, ref) == WithReference(owners, ref)
  {
    if owners != [] && !SameObject(owners[0], ref) {
      UpsertIsWithReference(owners[1..], ref);
      assert owners == [owners[0]] + owners[1..];
    }
  }

  lemma {:induction false} UpsertHas(owners: seq<OwnerRef>, ref: OwnerRef)
    ensures ref in Upsert(owners, ref)
  {
    if owners != [] && !SameObject(owners[0], ref) {
      UpsertHas(owners[1..], ref);
    }
  }

  /** CreateOrUpdate stops for another controller exactly when there is one: of another kind or name. */
  lemma AlreadyOwnedIff(c: Cluster, w: Work, a: Answer, world: World)
    requires w.More() && a.Ready?
    requires forall k <- c.paths :: Controllers(c.paths[k].owners) <= 1
    ensures var at := Key(w.key.ns, w.key.name + "-to-" + w.peers[|w.got|].name);
            CreateOrUpdate(c, w, a, world).1 == Some(AlreadyOwned)
            <==> && !world.probeFails(|w.got|) && at in c.paths
                 && exists r :: r in c.paths[at].owners && r.controller
                                && (r.kind != ScionPathPolicy || r.name != w.key.name)
    ensures CreateOrUpdate(c, w, a, world).1.Some? && CreateOrUpdate(c, w, a, world).1 != Some(AlreadyOwned)
            ==> CreateOrUpdate(c, w, a, world).1 == Some(ApiError)
  {
    var at := PathKey(w.key, w.Peer());
    if at in c.paths {
      var owners := c.paths[at].owners;
      ControllerIsAnOwner(owners);
      ControllerControls(owners);
      forall r | r in owners && r.controller
        ensures ControllerOf(owners) == Some(r)
      {
        OnlyController(owners, r);
      }
    }
  }

  lemma {:induction false} OnlyController(owners: seq<OwnerRef>, r: OwnerRef)
    requires Controllers(owners) <= 1 && r in owners && r.controller
    ensures ControllerOf(owners) == Some(r)
  {
    if owners[0].controller {
      if r != owners[0] {
        assert r in owners[1..];
        NoControllers(owners[1..], r);
      }
    } else {
      OnlyController(owners[1..], r);
    }
  }

  /** The same of a write of the protocol: whatever the server accepts from a run holds the CIDR of the peer and
      the answer the run was given about it. */
  lemma AcceptedWriteStores(s: State, e: Event)
    requires Inv(s) && Enabled(s, e) && e.Write? && !e.fault.Refused?
    requires WriteEffect(s.cluster, s.runs[e.run].key, s.runs[e.run].phase).Some?
    ensures var r := s.runs[e.run];
            var w, a := r.phase.work, r.phase.answer;
            && |w.got| < |w.peers| && a.Ready?
            && var at := Key(r.key.ns, r.key.name + "-to-" + w.peers[|w.got|].name);
               var d := Apply(s, e).cluster;
               && at in d.paths
               && d.paths[at].spec.policyRef == r.key.name
               && d.paths[at].spec.destinationCidr == w.peers[|w.got|].podCIDR
               && d.paths[at].spec.nextHopIP == a.nextHopIP
               && d.paths[at].spec.hopFields == a.hopFields
               && d == s.cluster.(paths := s.cluster.paths[at := d.paths[at]], nextRv := d.nextRv)
  {
    WriteIsEnabled(s, e);
    hide Inv; hide Enabled; hide Apply; hide LoopHead;
    var r := s.runs[e.run];
    var ph := r.phase;
    WriteIsOverItsOwn(s, r);
    WriteStep(s, e.run, r.key, ph.work, ph.answer, ph.base, ph.obj, e.fault);
  }

  // ---------------------------------------------------------------------------
  // How far a run gets
  // ---------------------------------------------------------------------------

  /** The answer about peer `j`, asked by the peer's AS and the policy's preference. */
  function Told(peers: seq<Peer>, snap: Policy, world: World, j: nat): Answer
    requires j < |peers| && snap.spec.preference.Some?
  {
    world.fetch(j, peers[j].remoteAS, snap.spec.preference.value)
  }

  /** The peer's path holds its CIDR and what was told about it. */
  predicate Holds(d: Cluster, key: Key, peer: Peer, a: Answer)
    requires a.Ready?
  {
    var at := Key(key.ns, key.name + "-to-" + peer.name);
    && at in d.paths
    && d.paths[at].spec.policyRef == key.name && d.paths[at].spec.destinationCidr == peer.podCIDR
    && d.paths[at].spec.nextHopIP == a.nextHopIP && d.paths[at].spec.hopFields == a.hopFields
  }

  predicate SameAt(c: Cluster, d: Cluster, at: Key) {
    (at in c.paths <==> at in d.paths) && (at in c.paths ==> d.paths[at] == c.paths[at])
  }

  /** From peer `i` on the loop dealt with the peers before `k`: no answer was an error, and for distinct names
      the ready ones' paths hold what was told about them; no path of another name changed. */
  ghost predicate DealtWith(c: Cluster, d: Cluster, w: Work, world: World, k: nat)
    requires |w.got| <= k <= |w.peers|
  {
    && (|w.got| < k ==> w.snap.spec.preference.Some?)
    && (forall j: nat | |w.got| <= j < k :: !Told(w.peers, w.snap, world, j).Unreachable?)
    && (DistinctNames(w.peers) ==>
          forall j: nat | |w.got| <= j < k && Told(w.peers, w.snap, world, j).Ready? ::
            Holds(d, w.key, w.peers[j], Told(w.peers, w.snap, world, j)))
    && (forall at | (forall j: nat | |w.got| <= j <= k && j < |w.peers| :: at != PathKey(w.key, w.peers[j])) ::
          SameAt(c, d, at))
  }

  /** Why the loop ended at `k`, and what it told its caller. */
  ghost predicate EndedAt(c: Cluster, d: Cluster, o: Outcome, w: Work, world: World, k: nat)
    requires |w.got| <= k <= |w.peers|
    requires |w.got| < k ==> w.snap.spec.preference.Some?
  {
    if k < |w.peers| then
      && d.policies == c.policies
      && if w.snap.spec.preference.None? then o == Failed(NilPreference)
         else match Told(w.peers, w.snap, world, k)
              case Unreachable => o == Failed(FetchError)
              case NotReady => false
              case Ready(_, _) => o == Failed(ApiError) || o == Failed(AlreadyOwned)
    else
      var ready := w.AllReady() && forall j: nat | |w.got| <= j < k :: Told(w.peers, w.snap, world, j).Ready?;
      if !ready then o == Requeue && d.policies == c.policies
      else
        && (o == Done || o == Failed(ApiError))
        && (o == Done ==>
              && w.key in c.policies && c.policies[w.key].rv == w.snap.rv && w.key in d.policies
              && "Active" in d.policies[w.key].conditions
              && d.policies[w.key].conditions["Active"]
                 == Condition(true, "PathsComputed", |w.peers|, w.snap.generation))
  }

  lemma EndFacts(c: Cluster, w: Work, world: World)
    requires |w.got| == |w.peers|
    ensures var (d, o) := PeerLoop(c, w, world);
            d.paths == c.paths && EndedAt(c, d, o, w, world, |w.peers|)
  {
  }

  /** Whatever fails and whatever the control service says: the loop dealt with the peers up to some `k`, in
      order, and then ended for just the reason that its outcome tells. */
  lemma LoopFacts(c: Cluster, w: Work, world: World) returns (k: nat)
    requires |w.got| <= |w.peers|
    ensures |w.got| <= k <= |w.peers|
    ensures var (d, o) := PeerLoop(c, w, world);
            DealtWith(c, d, w, world, k) && EndedAt(c, d, o, w, world, k)
    decreases |w.peers| - |w.got|
  {
    var i := |w.got|;
    k := i;
    if !w.More() {
      EndFacts(c, w, world);
    } else if w.snap.spec.preference.Some? {
      var a := Told(w.peers, w.snap, world, i);
      assert a == AnswerFor(w, world);
      if a.NotReady? {
        k := LoopFacts(c, w.Then(a), world);
        Longer(c, c, PeerLoop(c, w.Then(a), world).0, PeerLoop(c, w.Then(a), world).1, w, a, world, k);
      } else if a.Ready? {
        var (c', e) := CreateOrUpdate(c, w, a, world);
        OnlyItsPath(c, w, a, world);
        if e.None? {
          CreateOrUpdateStores(c, w, a, world);
          k := LoopFacts(c', w.Then(a), world);
          Longer(c, c', PeerLoop(c', w.Then(a), world).0, PeerLoop(c', w.Then(a), world).1, w, a, world, k);
        }
      }
    }
  }

  lemma OnlyItsPath(c: Cluster, w: Work, a: Answer, world: World)
    requires w.More() && a.Ready?
    ensures var (d, e) := CreateOrUpdate(c, w, a, world);
            && d.policies == c.policies
            && (forall at | at != PathKey(w.key, w.Peer()) :: SameAt(c, d, at))
            && (e.Some? ==> e.value == ApiError || e.value == AlreadyOwned)
  {
  }

  /** The first peer and the rest of the loop make the loop. */
  lemma Longer(c: Cluster, c': Cluster, d: Cluster, o: Outcome, w: Work, a: Answer, world: World, k: nat)
    requires w.More() && w.snap.spec.preference.Some? && a == Told(w.peers, w.snap, world, |w.got|) && !a.Unreachable?
    requires |w.got| + 1 <= k <= |w.peers|
    requires DealtWith(c', d, w.Then(a), world, k) && EndedAt(c', d, o, w.Then(a), world, k)
    requires c'.policies == c.policies && forall at | at != PathKey(w.key, w.Peer()) :: SameAt(c, c', at)
    requires if a.Ready? then Holds(c', w.key, w.Peer(), a) else c' == c
    ensures DealtWith(c, d, w, world, k) && EndedAt(c, d, o, w, world, k)
  {
    var v := w.Then(a);
    if a.Ready? && DistinctNames(w.peers) {
      var at := PathKey(w.key, w.Peer());
      forall j: nat | |v.got| <= j <= k && j < |v.peers|
        ensures at != PathKey(v.key, v.peers[j])
      {
        if at == PathKey(v.key, v.peers[j]) {
          NamesOfOnePolicyAreInjective(w.key.name, w.Peer().name, w.key.name, v.peers[j].name);
        }
      }
      assert SameAt(c', d, at);
      assert Holds(d, w.key, w.Peer(), a);
    }
    forall at | (forall j: nat | |w.got| <= j <= k && j < |w.peers| :: at != PathKey(w.key, w.peers[j]))
      ensures SameAt(c, d, at)
    {
      assert at != PathKey(w.key, w.peers[|w.got|]);
      assert SameAt(c, c', at) && SameAt(c', d, at);
    }
  }

  // ---------------------------------------------------------------------------
  // Whole runs
  // ---------------------------------------------------------------------------

  /** A run that does not get to the peers: no policy, a policy under deletion, or one without the finalizer. */
  lemma EarlyEndFacts(c: Cluster, key: Key, world: World)
    ensures world.getFails ==> Reconcile(c, key, world) == (c, Failed(ApiError))
    ensures !world.getFails && key !in c.policies ==> Reconcile(c, key, world) == (c, Done)
    ensures !world.getFails && key in c.policies && c.policies[key].deleting
            && "cilion.io/policy-finalizer" !in c.policies[key].finalizers
            ==> Reconcile(c, key, world) == (c, Done)
    ensures !world.getFails && key in c.policies
            && (c.policies[key].deleting <==> "cilion.io/policy-finalizer" in c.policies[key].finalizers)
            ==> var (d, o) := Reconcile(c, key, world);
                && o == (if world.update.Sound? then Done else Failed(ApiError))
                && d.paths == c.paths && d.peers == c.peers
                && (if world.update.Refused? then d == c
                    else FinalizerMoved(c.policies[key], Find(d.policies, key)))
                && (forall k | k != key :: Find(d.policies, k) == Find(c.policies, k))
    ensures !world.getFails && key in c.policies && !c.policies[key].deleting
            && "cilion.io/policy-finalizer" in c.policies[key].finalizers && world.listFails
            ==> Reconcile(c, key, world) == (c, Failed(ApiError))
  {
    if key in c.policies {
      var p := c.policies[key];
      if p.deleting && FINALIZER in p.finalizers {
        assert FINALIZER !in p.finalizers - {FINALIZER};
      }
    }
  }

  /** The finalizer was given up by a policy under deletion, which goes with its last one, or taken up. */
  predicate FinalizerMoved(before: Policy, after: Option<Policy>) {
    if before.deleting then
      if before.finalizers == {"cilion.io/policy-finalizer"} then after == None
      else after.Some? && after.value == before.(rv := after.value.rv,
                                                 finalizers := before.finalizers - {"cilion.io/policy-finalizer"})
    else after.Some? && after.value == before.(rv := after.value.rv,
                                               finalizers := before.finalizers + {"cilion.io/policy-finalizer"})
  }

  /** The policy is there, not under deletion, and has the finalizer. */
  predicate UnderWay(c: Cluster, key: Key) {
    && key in c.policies && !c.policies[key].deleting
    && "cilion.io/policy-finalizer" in c.policies[key].finalizers
  }

  /** A run that gets to the peers deals with those before some `k`, and its outcome tells why it ended there. */
  lemma PeersRunFacts(c: Cluster, key: Key, world: World) returns (k: nat)
    requires UnderWay(c, key) && !world.getFails && !world.listFails
    ensures k <= |c.peers|
    ensures var (d, o) := Reconcile(c, key, world);
            var w := Work(key, c.policies[key], c.peers, []);
            DealtWith(c, d, w, world, k) && EndedAt(c, d, o, w, world, k)
  {
    k := LoopFacts(c, Work(key, c.policies[key], c.peers, []), world);
    hide PeerLoop;
  }

  /** What Done means, whatever happened: every peer was ready, the policy is Active, as it was read, and for
      distinct names every peer's path holds its CIDR and what was told about it. */
  lemma DoneMeansServed(c: Cluster, key: Key, world: World)
    requires UnderWay(c, key) && Reconcile(c, key, world).1 == Done
    ensures var d := Reconcile(c, key, world).0;
            var p := c.policies[key];
            && key in d.policies && "Active" in d.policies[key].conditions
            && d.policies[key].conditions["Active"] == Condition(true, "PathsComputed", |c.peers|, p.generation)
            && (c.peers != [] ==> p.spec.preference.Some?)
            && (forall j | 0 <= j < |c.peers| ::
                  && world.fetch(j, c.peers[j].remoteAS, p.spec.preference.value).Ready?
                  && (DistinctNames(c.peers) ==>
                        Holds(d, key, c.peers[j], world.fetch(j, c.peers[j].remoteAS, p.spec.preference.value))))
  {
    var w := Work(key, c.policies[key], c.peers, []);
    EarlyEndFacts(c, key, world);
    var k := PeersRunFacts(c, key, world);
    hide Reconcile; hide Holds; hide SameAt;
    forall j: nat | j < |c.peers|
      ensures var a := world.fetch(j, c.peers[j].remoteAS, c.policies[key].spec.preference.value);
              a.Ready? && (DistinctNames(c.peers) ==> Holds(Reconcile(c, key, world).0, key, c.peers[j], a))
    {
      assert Told(w.peers, w.snap, world, j).Ready?;
    }
  }

  /** What Requeue means: no answer was an error, some peer was not ready, the policy is as before, and for
      distinct names every ready peer's path holds what was told about it. */
  lemma RequeueMeansPartlyServed(c: Cluster, key: Key, world: World)
    requires UnderWay(c, key) && Reconcile(c, key, world).1 == Requeue
    ensures var d := Reconcile(c, key, world).0;
            var p := c.policies[key];
            && d.policies == c.policies && p.spec.preference.Some?
            && (exists j | 0 <= j < |c.peers| ::
                  world.fetch(j, c.peers[j].remoteAS, p.spec.preference.value) == NotReady)
            && (forall j | 0 <= j < |c.peers| ::
                  var a := world.fetch(j, c.peers[j].remoteAS, p.spec.preference.value);
                  !a.Unreachable? && (a.Ready? && DistinctNames(c.peers) ==> Holds(d, key, c.peers[j], a)))
  {
    var w := Work(key, c.policies[key], c.peers, []);
    EarlyEndFacts(c, key, world);
    var k := PeersRunFacts(c, key, world);
    hide Reconcile; hide Holds; hide SameAt;
    var j: nat :| j < k && !Told(c.peers, c.policies[key], world, j).Ready?;
    assert world.fetch(j, c.peers[j].remoteAS, c.policies[key].spec.preference.value) == NotReady;
    forall j | 0 <= j < |c.peers|
      ensures var a := world.fetch(j, c.peers[j].remoteAS, c.policies[key].spec.preference.value);
              !a.Unreachable? && (a.Ready? && DistinctNames(c.peers)
                                  ==> Holds(Reconcile(c, key, world).0, key, c.peers[j], a))
    {
      assert !Told(c.peers, c.policies[key], world, j).Unreachable?;
    }
  }
}
