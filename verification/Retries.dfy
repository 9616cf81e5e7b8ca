/** Whole runs, one after the other: an aborted run leaves nothing a later run cannot make good, a
    full run twice is a full run once, and two full runs are always enough. */
module Retries {
  import opened Options
  import opened Naming
  import opened Kube
  import opened Reconciling
  import opened Plans

  // ---------------------------------------------------------------------------
  // One CreateOrUpdate
  // ---------------------------------------------------------------------------

  lemma ContentsAfterPut(c: Cluster, k: Key, v: ComputedPath)
    ensures Contents(PutPath(c, k, v).paths) == Contents(c.paths)[k := Content(v.owners, v.spec)]
  {
  }

  /** Whatever fails, CreateOrUpdate leaves the paths alone or writes the one it is about; without an
      error it has the effect of writing it. */
  lemma CreateOrUpdateWrites(c: Cluster, w: Work, a: Answer, world: World, p: Plan, j: nat)
    requires p.Valid() && j < |p.peers| && w.More() && a.Ready?
    requires w.key == p.key && w.snap.uid == p.uid && w.Peer() == p.peers[j] && a == p.answers[j]
    ensures var (d, e) := CreateOrUpdate(c, w, a, world);
            && d == c.(paths := d.paths, nextRv := d.nextRv)
            && (Contents(d.paths) == Contents(c.paths) || Contents(d.paths) == Written(Contents(c.paths), p, j))
            && (e.None? ==> Contents(d.paths) == Written(Contents(c.paths), p, j))
  {
    var k := PathKey(w.key, w.Peer());
    var found := Find(c.paths, k);
    var obj := Mutated(found, OwnerOf(w.key, w.snap), Target(w.key, w.Peer(), a));
    if obj.Some? {
      ContentsAfterPut(c, k, obj.value);
      if found == obj {
        assert Written(Contents(c.paths), p, j) == Contents(c.paths);
      }
    }
  }

  /** The API server will take the policy's control over every ready peer's path: no other
      controller, at most one controller afterwards, and a name that is stored or not too long. */
  predicate AcceptableAt(m: map<Key, Content>, p: Plan, k: Key) {
    && !OwnedByAnother(OwnersAt(m, k), p.Ref()) && Controllers(Upsert(OwnersAt(m, k), p.Ref())) <= 1
    && (k in m || |k.name| <= MAX_NAME)
  }

  ghost predicate Acceptable(m: map<Key, Content>, p: Plan)
    requires p.Valid()
  {
    forall j: nat | j < |p.peers| && p.answers[j].Ready? :: AcceptableAt(m, p, p.At(j))
  }

  lemma TouchedStaysAcceptable(m: map<Key, Content>, d: map<Key, Content>, p: Plan)
    requires p.Valid() && Acceptable(m, p) && Touched(m, d, p)
    ensures Acceptable(d, p)
  {
    forall j: nat | j < |p.peers| && p.answers[j].Ready?
      ensures AcceptableAt(d, p, p.At(j))
    {
      var k := p.At(j);
      assert AcceptableAt(m, p, k) && TouchedAt(m, d, p, k);
      UpsertIdempotent(OwnersAt(m, k), p.Ref());
      UpsertStaysOwned(OwnersAt(m, k), p.Ref());
    }
  }

  predicate Clean(world: World) {
    !world.getFails && !world.listFails && world.update.Sound? && world.status.Sound?
  }

  /** No call on behalf of a peer fails. */
  ghost predicate CleanPeers(world: World) {
    forall j: nat :: !world.probeFails(j) && world.write(j).Sound?
  }

  lemma CleanCreateOrUpdate(c: Cluster, w: Work, a: Answer, world: World, p: Plan)
    requires w.More() && a.Ready? && CleanPeers(world)
    requires w.key == p.key && w.snap.uid == p.uid
    requires AcceptableAt(Contents(c.paths), p, PathKey(w.key, w.Peer()))
    ensures CreateOrUpdate(c, w, a, world).1.None?
  {
  }

  /** That is just what it takes: when no call fails on its way, CreateOrUpdate fails if and only if another
      object controls the path, or it would have two controllers, or it is new and the names of the policy
      and the peer leave no room for the separator. */
  lemma CreateOrUpdateFailsIff(c: Cluster, w: Work, a: Answer, world: World)
    requires w.More() && a.Ready? && CleanPeers(world)
    requires forall k <- c.paths :: Controllers(c.paths[k].owners) <= 1
    ensures var at, ref := PathKey(w.key, w.Peer()), OwnerOf(w.key, w.snap);
            var owners := Owners(Find(c.paths, at));
            CreateOrUpdate(c, w, a, world).1.Some?
            <==> || OwnedByAnother(owners, ref)
                 || Controllers(Upsert(owners, ref)) > 1
                 || (at !in c.paths && |w.key.name| + 4 + |w.Peer().name| > MAX_NAME)
  {
    assert |PathKey(w.key, w.Peer()).name| == |w.key.name| + 4 + |w.Peer().name|;
  }

  // ---------------------------------------------------------------------------
  // The peer loop
  // ---------------------------------------------------------------------------

  /** The control service answers as in the plan, or is unreachable. */
  ghost predicate Faithful(world: World, p: Plan, preference: Option<string>)
    requires p.Valid()
  {
    preference.Some? ==>
      forall j: nat | j < |p.peers| ::
        var a := world.fetch(j, p.peers[j].remoteAS, preference.value);
        a == p.answers[j] || a == Unreachable
  }

  ghost predicate Steady(world: World, p: Plan, preference: Option<string>)
    requires p.Valid()
  {
    preference.Some? ==>
      forall j: nat | j < |p.peers| ::
        world.fetch(j, p.peers[j].remoteAS, preference.value) == p.answers[j]
  }

  predicate Follows(w: Work, p: Plan)
    requires p.Valid()
  {
    && w.key == p.key && w.snap.uid == p.uid && w.peers == p.peers
    && |w.got| <= |p.peers| && w.got == p.answers[..|w.got|]
  }

  lemma FollowsThen(w: Work, p: Plan)
    requires p.Valid() && Follows(w, p) && w.More()
    ensures Follows(w.Then(p.answers[|w.got|]), p)
  {
  }

  lemma FollowsToTheEnd(w: Work, p: Plan)
    requires p.Valid() && Follows(w, p) && !w.More()
    ensures w.got == p.answers && w.AllReady() == p.AllReady()
  {
    assert p.answers[..|p.answers|] == p.answers;
  }

  /** What any loop, however it ends, may do to the cluster it started in. */
  lemma LoopTouches(c: Cluster, w: Work, world: World, p: Plan)
    requires p.Valid() && Follows(w, p) && Faithful(world, p, w.snap.spec.preference)
    ensures var d := PeerLoop(c, w, world).0;
            && Touched(Contents(c.paths), Contents(d.paths), p)
            && d.peers == c.peers
            && (d.policies == c.policies
                || (p.AllReady() && PolicyActivated(c, d, w.key, w.snap, |p.peers|)))
    decreases |w.peers| - |w.got|
  {
    TouchedReflexive(Contents(c.paths), p);
    if !w.More() {
      FollowsToTheEnd(w, p);
      StatusActivates(c, w, world.status);
    } else if w.snap.spec.preference.Some? {
      var a := AnswerFor(w, world);
      if a == p.answers[|w.got|] && !a.Unreachable? {
        FollowsThen(w, p);
        if a.NotReady? {
          LoopTouches(c, w.Then(a), world, p);
        } else {
          var (c', e) := CreateOrUpdate(c, w, a, world);
          CreateOrUpdateWrites(c, w, a, world, p, |w.got|);
          WrittenTouches(Contents(c.paths), p, |w.got|);
          if e.None? {
            LoopTouches(c', w.Then(a), world, p);
            ActivatedMono(c, c', PeerLoop(c', w.Then(a), world).0, w.key, w.snap, |p.peers|);
            TouchedTransitive(Contents(c.paths), Contents(c'.paths),
                              Contents(PeerLoop(c', w.Then(a), world).0.paths), p);
          }
        }
      }
    }
  }

  lemma TouchedReflexive(m: map<Key, Content>, p: Plan)
    requires p.Valid()
    ensures Touched(m, m, p)
  {
  }

  /** From `c` to `d` the policy at `key`, still in the version that was read, got its Active condition. */
  predicate PolicyActivated(c: Cluster, d: Cluster, key: Key, snap: Policy, n: nat) {
    && key in c.policies && c.policies[key].rv == snap.rv
    && key in d.policies
    && d.policies == c.policies[key := d.policies[key]]
    && d.policies[key].(rv := c.policies[key].rv)
       == c.policies[key].(conditions := snap.conditions[ACTIVE := Condition(true, REASON, n, snap.generation)])
  }

  lemma StatusActivates(c: Cluster, w: Work, fault: Fault)
    ensures var (d, ok) := Send(c, UpdateStatus(c, w.key, Activated(w)), fault);
            && d.paths == c.paths && d.peers == c.peers
            && (d.policies == c.policies || PolicyActivated(c, d, w.key, w.snap, |w.peers|))
            && (ok ==> PolicyActivated(c, d, w.key, w.snap, |w.peers|))
            && (fault.Sound? && w.key in c.policies && c.policies[w.key].rv == w.snap.rv ==> ok)
  {
  }

  lemma ActivatedMono(c: Cluster, c': Cluster, d: Cluster, key: Key, snap: Policy, n: nat)
    requires c'.policies == c.policies
    ensures PolicyActivated(c', d, key, snap, n) == PolicyActivated(c, d, key, snap, n)
  {
  }

  /** One ready peer of a loop in which nothing fails. */
  lemma CleanStepSettles(c: Cluster, w: Work, world: World, p: Plan, m: map<Key, Content>)
    requires p.Valid() && Follows(w, p) && w.More() && p.answers[|w.got|].Ready? && CleanPeers(world)
    requires Acceptable(Contents(c.paths), p)
    requires Contents(c.paths) == Desired(m, p, |w.got|)
    ensures var (d, e) := CreateOrUpdate(c, w, p.answers[|w.got|], world);
            && e.None? && d == c.(paths := d.paths, nextRv := d.nextRv)
            && Acceptable(Contents(d.paths), p)
            && Contents(d.paths) == Desired(m, p, |w.got| + 1)
  {
    var j := |w.got|;
    var a := p.answers[j];
    assert AcceptableAt(Contents(c.paths), p, p.At(j));
    CleanCreateOrUpdate(c, w, a, world, p);
    CreateOrUpdateWrites(c, w, a, world, p, j);
    WrittenTouches(Contents(c.paths), p, j);
    hide Contents; hide CreateOrUpdate; hide Acceptable; hide Touched; hide AcceptableAt;
    TouchedStaysAcceptable(Contents(c.paths), Contents(CreateOrUpdate(c, w, a, world).0.paths), p);
  }

  /** A loop in which nothing fails carries the fold to its end. */
  lemma CleanLoopSettles(c: Cluster, w: Work, world: World, p: Plan, m: map<Key, Content>)
    requires p.Valid() && Follows(w, p) && p.NoErrors()
    requires CleanPeers(world) && world.status.Sound? && Steady(world, p, w.snap.spec.preference)
    requires w.snap.spec.preference.Some? || p.peers == []
    requires w.key in c.policies && c.policies[w.key].rv == w.snap.rv
    requires Acceptable(Contents(c.paths), p)
    requires Contents(c.paths) == Desired(m, p, |w.got|)
    ensures var (d, o) := PeerLoop(c, w, world);
            && Contents(d.paths) == Desired(m, p, |p.peers|)
            && d.peers == c.peers
            && o == (if p.AllReady() then Done else Requeue)
            && (if p.AllReady() then PolicyActivated(c, d, w.key, w.snap, |p.peers|) else d.policies == c.policies)
    decreases |w.peers| - |w.got|
  {
    hide Contents; hide CreateOrUpdate; hide Acceptable; hide UpdateStatus; hide Follows; hide Desired;
    if !w.More() {
      FollowsToTheEnd(w, p);
      StatusActivates(c, w, world.status);
      assert |w.got| == |w.peers| == |p.peers| by { FollowsLength(w, p); }
      hide Steady; hide PolicyActivated;
    } else {
      FollowsLength(w, p);
      NextAnswer(w, world, p);
      FollowsThen(w, p);
      hide Steady; hide PolicyActivated; hide CleanPeers;
      var a := AnswerFor(w, world);
      if a.NotReady? {
        assert Desired(m, p, |w.got| + 1) == Desired(m, p, |w.got|) by { DesiredStep(m, p, |w.got|); }
        CleanLoopSettles(c, w.Then(a), world, p, m);
      } else {
        CleanStepSettles(c, w, world, p, m);
        CleanLoopSettles(CreateOrUpdate(c, w, a, world).0, w.Then(a), world, p, m);
      }
    }
  }

  lemma FollowsLength(w: Work, p: Plan)
    requires p.Valid() && Follows(w, p)
    ensures w.key == p.key && w.peers == p.peers && |w.got| <= |p.peers|
  {
  }

  lemma DesiredStep(m: map<Key, Content>, p: Plan, j: nat)
    requires p.Valid() && j < |p.peers| && !p.answers[j].Ready?
    ensures Desired(m, p, j + 1) == Desired(m, p, j)
  {
  }

  /** The answer a steady control service gives about the next peer. */
  lemma NextAnswer(w: Work, world: World, p: Plan)
    requires p.Valid() && Follows(w, p) && w.More() && p.NoErrors() && Steady(world, p, w.snap.spec.preference)
    requires w.snap.spec.preference.Some?
    ensures AnswerFor(w, world) == p.answers[|w.got|] && !AnswerFor(w, world).Unreachable?
  {
    assert p.answers[|w.got|] in p.answers;
  }

  // ---------------------------------------------------------------------------
  // Whole runs
  // ---------------------------------------------------------------------------

  /** The plan is about this cluster's policy and peers. */
  ghost predicate Matches(c: Cluster, p: Plan) {
    && p.Valid() && p.key in c.policies
    && !c.policies[p.key].deleting
    && p.uid == c.policies[p.key].uid && p.peers == c.peers
  }

  function Goal(p: Plan, start: Policy): map<string, Condition> {
    start.conditions[ACTIVE := Condition(true, REASON, |p.peers|, start.generation)]
  }

  /** All that runs, finished or aborted, can have done to the policy. */
  predicate Near(p: Plan, start: Policy, now: Policy) {
    && now == start.(rv := now.rv, finalizers := now.finalizers, conditions := now.conditions)
    && (now.finalizers == start.finalizers || now.finalizers == start.finalizers + {FINALIZER})
    && (now.conditions == start.conditions || (p.AllReady() && now.conditions == Goal(p, start)))
  }

  ghost predicate Evolved(c0: Cluster, c: Cluster, p: Plan)
    requires Matches(c0, p)
  {
    && c.peers == c0.peers && p.key in c.policies
    && c.policies == c0.policies[p.key := c.policies[p.key]]
    && Near(p, c0.policies[p.key], c.policies[p.key])
    && Touched(Contents(c0.paths), Contents(c.paths), p)
  }

  /** Exactly what a full run leaves of the cluster `c0`: every ready peer's path, the finalizer, and
      Active if and only if every peer was ready. */
  ghost predicate Settled(c0: Cluster, c: Cluster, p: Plan)
    requires Matches(c0, p)
  {
    var start := c0.policies[p.key];
    && c.peers == c0.peers && p.key in c.policies
    && Contents(c.paths) == Desired(Contents(c0.paths), p, |p.peers|)
    && c.policies == c0.policies[p.key := c.policies[p.key]]
    && c.policies[p.key]
       == start.(rv := c.policies[p.key].rv,
                 finalizers := start.finalizers + {FINALIZER},
                 conditions := if p.AllReady() then Goal(p, start) else start.conditions)
  }

  /** Equal but for resource versions. */
  ghost predicate SameUpToVersions(c: Cluster, d: Cluster) {
    && Contents(c.paths) == Contents(d.paths)
    && c.peers == d.peers
    && c.policies.Keys == d.policies.Keys
    && (forall k <- c.policies :: c.policies[k].(rv := 0) == d.policies[k].(rv := 0))
  }

  function Preference(c: Cluster, p: Plan): Option<string>
    requires p.key in c.policies
  {
    c.policies[p.key].spec.preference
  }

  /** A world in which nothing fails and the control service answers by the plan. */
  ghost predicate Fine(c: Cluster, p: Plan, world: World)
    requires Matches(c, p)
  {
    && Clean(world) && CleanPeers(world) && Steady(world, p, Preference(c, p)) && p.NoErrors()
    && (Preference(c, p).Some? || p.peers == [])
    && Acceptable(Contents(c.paths), p)
  }

  lemma RunEvolves(c0: Cluster, c: Cluster, p: Plan, world: World)
    requires Matches(c0, p) && Evolved(c0, c, p) && Faithful(world, p, Preference(c0, p))
    ensures Evolved(c0, Reconcile(c, p.key, world).0, p)
  {
    var d := Reconcile(c, p.key, world).0;
    var now := c.policies[p.key];
    if !world.getFails && FINALIZER in now.finalizers && !world.listFails {
      LoopTouches(c, Work(p.key, now, c.peers, []), world, p);
      TouchedTransitive(Contents(c0.paths), Contents(c.paths), Contents(d.paths), p);
    } else {
      TouchedReflexive(Contents(c.paths), p);
    }
  }

  function Runs(c: Cluster, key: Key, worlds: seq<World>): Cluster
    decreases |worlds|
  {
    if worlds == [] then c else Runs(Reconcile(c, key, worlds[0]).0, key, worlds[1..])
  }

  lemma {:induction false} RunsEvolve(c0: Cluster, c: Cluster, p: Plan, worlds: seq<World>)
    requires Matches(c0, p) && Evolved(c0, c, p)
    requires forall i | 0 <= i < |worlds| :: Faithful(worlds[i], p, Preference(c0, p))
    ensures Evolved(c0, Runs(c, p.key, worlds), p)
    decreases |worlds|
  {
    if worlds != [] {
      RunEvolves(c0, c, p, worlds[0]);
      RunsEvolve(c0, Reconcile(c, p.key, worlds[0]).0, p, worlds[1..]);
    }
  }

  lemma StartIsEvolved(c0: Cluster, p: Plan)
    requires Matches(c0, p)
    ensures Evolved(c0, c0, p)
  {
    TouchedReflexive(Contents(c0.paths), p);
  }

  /** One full run, from anywhere earlier runs may have left the cluster. */
  lemma FullRunSettles(c0: Cluster, c: Cluster, p: Plan, world: World)
    requires Matches(c0, p) && Evolved(c0, c, p) && Fine(c0, p, world)
    requires FINALIZER in c.policies[p.key].finalizers
    ensures var (d, o) := Reconcile(c, p.key, world);
            Settled(c0, d, p) && o == if p.AllReady() then Done else Requeue
  {
    var now := c.policies[p.key];
    var w := Work(p.key, now, c.peers, []);
    TouchedStaysAcceptable(Contents(c0.paths), Contents(c.paths), p);
    CleanLoopSettles(c, w, world, p, Contents(c.paths));
    DesiredForgets(Contents(c0.paths), Contents(c.paths), p);
    assert Reconcile(c, p.key, world) == PeerLoop(c, w, world);
    hide Contents; hide Desired; hide PeerLoop; hide Touched; hide Acceptable; hide Reconcile; hide Steady;
    LoopSettles(c0, c, PeerLoop(c, w, world).0, p);
  }

  /** Where the loop's effect on the policy leaves the cluster. */
  lemma LoopSettles(c0: Cluster, c: Cluster, d: Cluster, p: Plan)
    requires Matches(c0, p) && Evolved(c0, c, p) && FINALIZER in c.policies[p.key].finalizers
    requires Contents(d.paths) == Desired(Contents(c0.paths), p, |p.peers|) && d.peers == c.peers
    requires if p.AllReady() then PolicyActivated(c, d, p.key, c.policies[p.key], |p.peers|)
             else d.policies == c.policies
    ensures Settled(c0, d, p)
  {
    hide Contents; hide Desired; hide Touched;
  }

  /** A run that finds no finalizer adds it and does nothing else. */
  lemma FirstRunAddsFinalizer(c0: Cluster, c: Cluster, p: Plan, world: World)
    requires Matches(c0, p) && Evolved(c0, c, p) && Fine(c0, p, world)
    requires FINALIZER !in c.policies[p.key].finalizers
    ensures var (d, o) := Reconcile(c, p.key, world);
            && Evolved(c0, d, p) && FINALIZER in d.policies[p.key].finalizers && o == Done
            && d.paths == c.paths && d.peers == c.peers
            && d.policies == c.policies[p.key := c.policies[p.key].(rv := d.policies[p.key].rv,
                                                                   finalizers := d.policies[p.key].finalizers)]
            && d.policies[p.key].finalizers == c.policies[p.key].finalizers + {FINALIZER}
  {
    RunEvolves(c0, c, p, world);
  }

  function Twice(c: Cluster, key: Key, world: World): (Cluster, Outcome) {
    Reconcile(Reconcile(c, key, world).0, key, world)
  }

  /** Two full runs settle the cluster wherever earlier runs left it. */
  lemma TwoRunsSettle(c0: Cluster, c: Cluster, p: Plan, world: World)
    requires Matches(c0, p) && Evolved(c0, c, p) && Fine(c0, p, world)
    ensures var (d, o) := Twice(c, p.key, world);
            Settled(c0, d, p) && o == if p.AllReady() then Done else Requeue
  {
    var d := Reconcile(c, p.key, world).0;
    if FINALIZER in c.policies[p.key].finalizers {
      FullRunSettles(c0, c, p, world);
      SettledIsEvolved(c0, d, p);
    } else {
      FirstRunAddsFinalizer(c0, c, p, world);
    }
    FullRunSettles(c0, d, p, world);
  }

  lemma SettledIsEvolved(c0: Cluster, c: Cluster, p: Plan)
    requires Matches(c0, p) && Settled(c0, c, p)
    ensures Evolved(c0, c, p)
  {
    DesiredTouches(Contents(c0.paths), p);
  }

  lemma SettledAgree(c0: Cluster, d: Cluster, e: Cluster, p: Plan)
    requires Matches(c0, p) && Settled(c0, d, p) && Settled(c0, e, p)
    ensures SameUpToVersions(d, e)
  {
  }

  // ---------------------------------------------------------------------------
  // The theorems
  // ---------------------------------------------------------------------------

  /** Retry transparency: after any sequence of runs aborted anywhere, one full run (two when none of
      them got as far as the finalizer) leaves the paths and the policy as uninterrupted runs do. */
  lemma RetryTransparent(c0: Cluster, p: Plan, history: seq<World>, world: World)
    requires Matches(c0, p) && Fine(c0, p, world)
    requires forall i | 0 <= i < |history| :: Faithful(history[i], p, Preference(c0, p))
    ensures var c := Runs(c0, p.key, history);
            && p.key in c.policies
            && SameUpToVersions(Twice(c, p.key, world).0, Twice(c0, p.key, world).0)
            && (FINALIZER in c.policies[p.key].finalizers
                ==> SameUpToVersions(Reconcile(c, p.key, world).0, Twice(c0, p.key, world).0))
  {
    var c := Runs(c0, p.key, history);
    StartIsEvolved(c0, p);
    RunsEvolve(c0, c0, p, history);
    TwoRunsSettle(c0, c0, p, world);
    TwoRunsSettle(c0, c, p, world);
    SettledAgree(c0, Twice(c, p.key, world).0, Twice(c0, p.key, world).0, p);
    if FINALIZER in c.policies[p.key].finalizers {
      FullRunSettles(c0, c, p, world);
      SettledAgree(c0, Reconcile(c, p.key, world).0, Twice(c0, p.key, world).0, p);
    }
  }

  /** Bounded progress: when nothing fails and every peer is ready, at most two runs take any policy
      that is not under deletion to Active for its current generation. */
  lemma TwoRunsReachActive(c: Cluster, p: Plan, world: World)
    requires Matches(c, p) && Fine(c, p, world) && p.AllReady()
    ensures var (d, o) := Twice(c, p.key, world);
            && o == Done
            && p.key in d.policies && ACTIVE in d.policies[p.key].conditions
            && d.policies[p.key].generation == c.policies[p.key].generation
            && d.policies[p.key].conditions[ACTIVE]
               == Condition(true, REASON, |c.peers|, c.policies[p.key].generation)
            && (forall j | 0 <= j < |p.peers| :: p.At(j) in d.paths)
  {
    StartIsEvolved(c, p);
    TwoRunsSettle(c, c, p, world);
    var d := Twice(c, p.key, world).0;
    forall j | 0 <= j < |p.peers|
      ensures p.At(j) in d.paths
    {
      assert p.answers[j] in p.answers;
      LastWriterIsLast(p, p.At(j), |p.peers|);
      DesiredAt(Contents(c.paths), p, |p.peers|, p.At(j));
      assert p.At(j) in Contents(d.paths);
    }
  }

  /** A full run is idempotent, duplicate peer names or not. */
  lemma FullRunIdempotent(c: Cluster, p: Plan, world: World)
    requires Matches(c, p) && Fine(c, p, world) && FINALIZER in c.policies[p.key].finalizers
    ensures SameUpToVersions(Twice(c, p.key, world).0, Reconcile(c, p.key, world).0)
    ensures Twice(c, p.key, world).1 == Reconcile(c, p.key, world).1
  {
    StartIsEvolved(c, p);
    FullRunSettles(c, c, p, world);
    TwoRunsSettle(c, c, p, world);
    SettledAgree(c, Twice(c, p.key, world).0, Reconcile(c, p.key, world).0, p);
  }

  /** The path at `k` is under the control of the plan's policy. */
  predicate Owned(c: Cluster, p: Plan, k: Key) {
    k in c.paths && ControllerOf(c.paths[k].owners) == Some(p.Ref())
  }

  /** A full run adds the paths of ready peers and removes none, in the cluster and among the policy's own:
      afterwards the policy owns the paths of ready peers only, if and only if it owned no other path
      before, say of a peer since removed. */
  lemma PathsMatchPeersIff(c: Cluster, p: Plan, world: World)
    requires Matches(c, p) && Fine(c, p, world) && FINALIZER in c.policies[p.key].finalizers
    ensures var d := Reconcile(c, p.key, world).0;
            && (forall k :: k in d.paths <==> k in c.paths || IsTarget(p, k))
            && (forall k :: Owned(d, p, k) <==> Owned(c, p, k) || IsTarget(p, k))
            && ((forall k :: Owned(d, p, k) <==> IsTarget(p, k)) <==> (forall k | Owned(c, p, k) :: IsTarget(p, k)))
  {
    var d := Reconcile(c, p.key, world).0;
    forall k
      ensures k in d.paths <==> k in c.paths || IsTarget(p, k)
      ensures Owned(d, p, k) <==> Owned(c, p, k) || IsTarget(p, k)
    {
      OwnedAfterFullRun(c, p, world, k);
    }
    hide Reconcile; hide Fine; hide Matches; hide IsTarget; hide Owned;
  }

  lemma OwnedAfterFullRun(c: Cluster, p: Plan, world: World, k: Key)
    requires Matches(c, p) && Fine(c, p, world) && FINALIZER in c.policies[p.key].finalizers
    ensures var d := Reconcile(c, p.key, world).0;
            && (k in d.paths <==> k in c.paths || IsTarget(p, k))
            && (Owned(d, p, k) <==> Owned(c, p, k) || IsTarget(p, k))
  {
    var d := Reconcile(c, p.key, world).0;
    var m := Contents(c.paths);
    StartIsEvolved(c, p);
    FullRunSettles(c, c, p, world);
    DesiredAt(m, p, |p.peers|, k);
    LastWriterIsLast(p, k, |p.peers|);
    assert k in Contents(d.paths) <==> k in d.paths;
    assert k in m <==> k in c.paths;
    if IsTarget(p, k) {
      assert AcceptableAt(m, p, p.At(LastWriter(p, k, |p.peers|)));
      UpsertMakesController(OwnersAt(m, k), p.Ref());
    }
    hide Reconcile; hide Fine;
  }

  /** The stored path of ready peer `j` holds that peer's CIDR and the answer about that peer. */
  predicate ServedAt(c: Cluster, p: Plan, j: nat)
    requires p.Valid() && j < |p.peers| && p.answers[j].Ready?
  {
    && p.At(j) in c.paths
    && c.paths[p.At(j)].spec.policyRef == p.key.name
    && c.paths[p.At(j)].spec.destinationCidr == p.peers[j].podCIDR
    && c.paths[p.At(j)].spec.nextHopIP == p.answers[j].nextHopIP
    && c.paths[p.At(j)].spec.hopFields == p.answers[j].hopFields
  }

  /** Listed peers of one name want the same path. */
  predicate SameWish(p: Plan, i: nat, j: nat)
    requires p.Valid() && i < |p.peers| && j < |p.peers|
  {
    p.answers[i].Ready? && p.answers[j].Ready? && p.peers[i].name == p.peers[j].name
    ==> p.peers[i].podCIDR == p.peers[j].podCIDR && p.answers[i] == p.answers[j]
  }

  lemma PathAfterFullRun(c: Cluster, p: Plan, world: World, j: nat)
    requires Matches(c, p) && Fine(c, p, world) && FINALIZER in c.policies[p.key].finalizers
    requires j < |p.peers| && p.answers[j].Ready?
    ensures var d := Reconcile(c, p.key, world).0;
            var i := LastWriter(p, p.At(j), |p.peers|);
            && 0 <= i < |p.peers| && p.answers[i].Ready? && p.peers[i].name == p.peers[j].name
            && p.At(j) in d.paths
            && d.paths[p.At(j)].spec == Target(p.key, p.peers[i], p.answers[i])
  {
    var d := Reconcile(c, p.key, world).0;
    var i := LastWriter(p, p.At(j), |p.peers|);
    StartIsEvolved(c, p);
    FullRunSettles(c, c, p, world);
    LastWriterIsLast(p, p.At(j), |p.peers|);
    DesiredAt(Contents(c.paths), p, |p.peers|, p.At(j));
    assert p.At(j) in Contents(d.paths);
    NamesOfOnePolicyAreInjective(p.key.name, p.peers[i].name, p.key.name, p.peers[j].name);
  }

  /** A full run serves every ready peer if and only if ready peers of one name, in whatever namespaces
      they live, want the same path: otherwise the one listed last takes the path of the others. */
  lemma AllServedIff(c: Cluster, p: Plan, world: World)
    requires Matches(c, p) && Fine(c, p, world) && FINALIZER in c.policies[p.key].finalizers
    ensures var d := Reconcile(c, p.key, world).0;
            (forall j: nat | j < |p.peers| && p.answers[j].Ready? :: ServedAt(d, p, j))
            <==> (forall i: nat, j: nat | i < |p.peers| && j < |p.peers| :: SameWish(p, i, j))
  {
    var d := Reconcile(c, p.key, world).0;
    forall i: nat, j: nat | i < |p.peers| && j < |p.peers|
      ensures (p.answers[i].Ready? ==> ServedAt(d, p, i)) && (p.answers[j].Ready? ==> ServedAt(d, p, j))
              ==> SameWish(p, i, j)
    {
    }
    if forall i: nat, j: nat | i < |p.peers| && j < |p.peers| :: SameWish(p, i, j) {
      forall j: nat | j < |p.peers| && p.answers[j].Ready?
        ensures ServedAt(d, p, j)
      {
        PathAfterFullRun(c, p, world, j);
        assert SameWish(p, LastWriter(p, p.At(j), |p.peers|), j);
      }
    }
    hide Reconcile; hide Fine; hide Matches; hide ServedAt; hide SameWish;
  }

  /** A run for a policy under deletion gives up the finalizer and nothing else, which removes the
      policy exactly when it was the last one; the paths are left to the garbage collector. */
  lemma DeletionRunReleases(c: Cluster, key: Key, world: World)
    requires key in c.policies && c.policies[key].deleting
    requires !world.getFails && world.update.Sound?
    ensures var (d, o) := Reconcile(c, key, world);
            var held := c.policies[key].finalizers;
            && o == Done && d.paths == c.paths && d.peers == c.peers
            && (FINALIZER !in held ==> d == c)
            && (held == {FINALIZER} ==> d.policies == c.policies - {key})
            && (FINALIZER in held && held != {FINALIZER} ==>
                  && key in d.policies && d.policies[key].finalizers == held - {FINALIZER}
                  && d.policies == c.policies[key := c.policies[key].(rv := d.policies[key].rv,
                                                                       finalizers := held - {FINALIZER})])
  {
    var held := c.policies[key].finalizers;
    if FINALIZER in held {
      assert held - {FINALIZER} == {} <==> held == {FINALIZER};
      assert FINALIZER !in held - {FINALIZER};
    }
  }

  /** The path of peer `j` is stored just as this run would write it. */
  predicate StillAt(c: Cluster, p: Plan, j: nat)
    requires p.Valid() && j < |p.peers| && p.answers[j].Ready?
  {
    var k := p.At(j);
    && k in c.paths
    && !OwnedByAnother(c.paths[k].owners, p.Ref())
    && Upsert(c.paths[k].owners, p.Ref()) == c.paths[k].owners
    && c.paths[k].spec == Target(p.key, p.peers[j], p.answers[j])
  }

  lemma StillLoop(c: Cluster, w: Work, world: World, p: Plan)
    requires p.Valid() && Follows(w, p) && p.NoErrors() && CleanPeers(world) && world.status.Sound?
    requires Steady(world, p, w.snap.spec.preference)
    requires w.snap.spec.preference.Some? || p.peers == []
    requires w.key in c.policies && c.policies[w.key] == w.snap
    requires p.AllReady() ==> ACTIVE in w.snap.conditions && w.snap.conditions[ACTIVE] == ActiveCondition(w)
    requires forall j: nat | j < |p.peers| && p.answers[j].Ready? :: StillAt(c, p, j)
    ensures PeerLoop(c, w, world) == (c, if p.AllReady() then Done else Requeue)
    decreases |w.peers| - |w.got|
  {
    if !w.More() {
      FollowsToTheEnd(w, p);
      if p.AllReady() {
        assert w.snap.conditions[ACTIVE := ActiveCondition(w)] == w.snap.conditions;
      }
    } else {
      var j := |w.got|;
      assert p.answers[j] in p.answers;
      FollowsThen(w, p);
      if p.answers[j].Ready? {
        assert StillAt(c, p, j);
        assert CreateOrUpdate(c, w, p.answers[j], world) == (c, None);
      }
      StillLoop(c, w.Then(p.answers[j]), world, p);
    }
  }

  /** With distinct peer names a second full run writes nothing at all. */
  lemma SecondRunWritesNothing(c: Cluster, p: Plan, world: World)
    requires Matches(c, p) && Fine(c, p, world) && FINALIZER in c.policies[p.key].finalizers
    requires DistinctNames(p.peers)
    ensures Twice(c, p.key, world) == Reconcile(c, p.key, world)
  {
    var d := Reconcile(c, p.key, world).0;
    var m := Contents(c.paths);
    StartIsEvolved(c, p);
    FullRunSettles(c, c, p, world);
    SettledIsEvolved(c, d, p);
    TouchedStaysAcceptable(m, Contents(d.paths), p);
    forall j: nat | j < |p.peers| && p.answers[j].Ready?
      ensures StillAt(d, p, j)
    {
      OwnLastWriter(p, j);
      DesiredAt(m, p, |p.peers|, p.At(j));
      UpsertIdempotent(OwnersAt(m, p.At(j)), p.Ref());
      assert p.At(j) in Contents(d.paths);
      assert AcceptableAt(Contents(d.paths), p, p.At(j));
    }
    StillLoop(d, Work(p.key, d.policies[p.key], d.peers, []), world, p);
  }

  /** With distinct peer names a full run does not depend on the order in which peers are listed. */
  lemma ListingOrderIrrelevant(c: Cluster, peers: seq<Peer>, p: Plan, q: Plan, answer: Peer -> Answer,
                               world: World, world': World)
    requires Matches(c, p) && Fine(c, p, world) && FINALIZER in c.policies[p.key].finalizers
    requires Matches(c.(peers := peers), q) && Fine(c.(peers := peers), q, world')
    requires Reordered(p, q) && AnswersFrom(p, answer) && AnswersFrom(q, answer)
    requires DistinctNames(p.peers) && DistinctNames(q.peers)
    ensures var (d, o) := Reconcile(c, p.key, world);
            var (d', o') := Reconcile(c.(peers := peers), p.key, world');
            o == o' && SameUpToVersions(d.(peers := peers), d')
  {
    var c' := c.(peers := peers);
    StartIsEvolved(c, p);
    StartIsEvolved(c', q);
    FullRunSettles(c, c, p, world);
    FullRunSettles(c', c', q, world');
    DesiredIgnoresOrder(p, q, answer, Contents(c.paths));
    ReorderedReady(p, q, answer);
    assert |p.peers| == |multiset(p.peers)| == |multiset(q.peers)| == |q.peers|;
  }

  lemma ReorderedReady(p: Plan, q: Plan, answer: Peer -> Answer)
    requires Reordered(p, q) && AnswersFrom(p, answer) && AnswersFrom(q, answer)
    ensures p.AllReady() == q.AllReady()
  {
    if p.AllReady() {
      HalfReordered(p, q, answer);
    }
    if q.AllReady() {
      HalfReordered(q, p, answer);
    }
  }

  lemma HalfReordered(p: Plan, q: Plan, answer: Peer -> Answer)
    requires Reordered(p, q) && AnswersFrom(p, answer) && AnswersFrom(q, answer) && p.AllReady()
    ensures q.AllReady()
  {
    forall a <- q.answers
      ensures a.Ready?
    {
      var j :| 0 <= j < |q.answers| && q.answers[j] == a;
      assert q.peers[j] in multiset(q.peers);
      var i :| 0 <= i < |p.peers| && p.peers[i] == q.peers[j];
      assert p.answers[i] in p.answers;
    }
  }

  /** Last known good: whatever fails, one run removes no path and changes none but those of peers the
      control service called ready in that run. */
  lemma LastKnownGood(c: Cluster, p: Plan, world: World, j: nat)
    requires p.Valid() && p.peers == c.peers && j < |p.peers|
    requires p.key in c.policies ==> p.uid == c.policies[p.key].uid && Steady(world, p, Preference(c, p))
    ensures var d := Reconcile(c, p.key, world).0;
            && (forall k <- c.paths :: k in d.paths)
            && (forall k <- d.paths :: !IsTarget(p, k) ==> k in c.paths && Contents(d.paths)[k] == Contents(c.paths)[k])
            && (DistinctNames(p.peers) && !p.answers[j].Ready?
                ==> SameAt(Contents(c.paths), Contents(d.paths), p.At(j)))
  {
    var d := Reconcile(c, p.key, world).0;
    RunTouches(c, p, world);
    forall k
      ensures k in c.paths ==> k in d.paths
      ensures k in d.paths && !IsTarget(p, k) ==> k in c.paths && Contents(d.paths)[k] == Contents(c.paths)[k]
    {
      assert TouchedAt(Contents(c.paths), Contents(d.paths), p, k);
      assert k in Contents(c.paths) <==> k in c.paths;
      assert k in Contents(d.paths) <==> k in d.paths;
    }
    if DistinctNames(p.peers) && !p.answers[j].Ready? {
      assert TouchedAt(Contents(c.paths), Contents(d.paths), p, p.At(j));
      LastWriterIsLast(p, p.At(j), |p.peers|);
      if IsTarget(p, p.At(j)) {
        DistinctNamesDistinctKeys(p, LastWriter(p, p.At(j), |p.peers|), j);
      }
    }
  }

  lemma RunTouches(c: Cluster, p: Plan, world: World)
    requires p.Valid() && p.peers == c.peers
    requires p.key in c.policies ==> p.uid == c.policies[p.key].uid && Steady(world, p, Preference(c, p))
    ensures Touched(Contents(c.paths), Contents(Reconcile(c, p.key, world).0.paths), p)
  {
    TouchedReflexive(Contents(c.paths), p);
    if !world.getFails && !world.listFails && AfterGet(Find(c.policies, p.key)).Listing? {
      LoopTouches(c, Work(p.key, c.policies[p.key], c.peers, []), world, p);
    }
  }

  /** A run trips over the optional preference exactly when it gets as far as a first peer. */
  lemma NilPreferenceIff(c: Cluster, key: Key, world: World)
    ensures Reconcile(c, key, world).1 == Failed(NilPreference)
       <==> && !world.getFails && key in c.policies
            && !c.policies[key].deleting && FINALIZER in c.policies[key].finalizers
            && !world.listFails && c.peers != [] && c.policies[key].spec.preference.None?
  {
    if !world.getFails && key in c.policies && c.policies[key].spec.preference.Some? {
      LoopHasPreference(c, Work(key, c.policies[key], c.peers, []), world);
    }
  }

  lemma {:induction false} LoopHasPreference(c: Cluster, w: Work, world: World)
    requires |w.got| <= |w.peers| && w.snap.spec.preference.Some?
    ensures PeerLoop(c, w, world).1 != Failed(NilPreference)
    decreases |w.peers| - |w.got|
  {
    if w.More() {
      var a := AnswerFor(w, world);
      if a.NotReady? {
        LoopHasPreference(c, w.Then(a), world);
      } else if a.Ready? {
        LoopHasPreference(CreateOrUpdate(c, w, a, world).0, w.Then(a), world);
      }
    }
  }
}
