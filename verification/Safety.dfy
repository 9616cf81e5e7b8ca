/** What holds in every reachable state of the protocol, whatever fails and however stale the
    reads are: who owns a computed path, what it is called, and what a run may overwrite. */
module Safety {
  import opened Options
  import opened Naming
  import opened Kube
  import opened Reconciling
  import opened Protocol

  // ---------------------------------------------------------------------------
  // The invariant
  // ---------------------------------------------------------------------------

  /** A resource version belongs to one version of one object. */
  ghost predicate PolicyVersionsDistinct(log: set<(Key, Policy)>, nextRv: nat) {
    && (forall x <- log :: x.1.rv < nextRv)
    && (forall x, y | x in log && y in log && x.1.rv == y.1.rv :: x == y)
  }

  ghost predicate PathVersionsDistinct(log: set<(Key, ComputedPath)>, nextRv: nat) {
    && (forall x <- log :: x.1.rv < nextRv)
    && (forall x, y | x in log && y in log && x.1.rv == y.1.rv :: x == y)
  }

  ghost predicate CurrentIsLogged(s: State) {
    && (forall k <- s.cluster.policies :: (k, s.cluster.policies[k]) in s.policyLog)
    && (forall k <- s.cluster.paths :: (k, s.cluster.paths[k]) in s.pathLog)
    && (forall p <- s.cluster.peers :: p.name in s.peerNames)
  }

  ghost predicate UidsIssued(s: State) {
    && (forall x <- s.policyLog :: (x.1.uid, x.0) in s.issued)
    && (forall x <- s.issued :: x.0 < s.nextUid)
    && (forall x, y | x in s.issued && y in s.issued && x.0 == y.0 :: x == y)
  }

  /** The name of `at` is a policy's name, the separator, and the name of a peer of some time. */
  ghost predicate NamedAfter(peerNames: set<string>, at: Key, policy: string) {
    exists peer :: peer in peerNames && at.name == ComputedPathName(policy, peer)
  }

  /** A computed path under a policy's control: exactly one controlling owner, a policy that was
      issued this uid in the path's own namespace, which the spec and the name both mention. */
  ghost predicate WellOwned(issued: set<(nat, Key)>, peerNames: set<string>, at: Key, v: ComputedPath) {
    && Controllers(v.owners) <= 1
    && (PolicyControlled(v) ==>
          var ref := ControllerOf(v.owners).value;
          && Controllers(v.owners) == 1
          && (ref.uid, Key(at.ns, ref.name)) in issued
          && v.spec.policyRef == ref.name
          && NamedAfter(peerNames, at, ref.name))
  }

  ghost predicate PathsWellOwned(s: State) {
    forall x <- s.pathLog :: WellOwned(s.issued, s.peerNames, x.0, x.1)
  }

  ghost predicate WorkOk(s: State, key: Key, w: Work) {
    && w.key == key
    && (key, w.snap) in s.policyLog
    && FINALIZER in w.snap.finalizers && !w.snap.deleting
    && |w.got| <= |w.peers|
    && (forall p <- w.peers :: p.name in s.peerNames)
  }

  ghost predicate RunOk(s: State, r: Run) {
    match r.phase
    case Reading => true
    case Updating(snap, next) => (r.key, snap) in s.policyLog && next == snap.(finalizers := next.finalizers)
    case Listing(snap) => (r.key, snap) in s.policyLog && FINALIZER in snap.finalizers && !snap.deleting
    case Fetching(w) => WorkOk(s, r.key, w) && w.More()
    case Probing(w, a) => WorkOk(s, r.key, w) && w.More() && a.Ready?
    case Writing(w, a, base, obj) =>
      && WorkOk(s, r.key, w) && w.More() && a.Ready?
      && Mutated(base, OwnerOf(r.key, w.snap), Target(r.key, w.Peer(), a)) == Some(obj)
      && (base.Some? ==> (PathKey(r.key, w.Peer()), base.value) in s.pathLog)
    case Reporting(w) => WorkOk(s, r.key, w) && !w.More() && w.AllReady()
    case Finished(_) => true
  }

  ghost predicate RunsOk(s: State) {
    forall r <- s.runs :: RunOk(s, r)
  }

  ghost predicate Inv(s: State) {
    && PolicyVersionsDistinct(s.policyLog, s.cluster.nextRv)
    && PathVersionsDistinct(s.pathLog, s.cluster.nextRv)
    && CurrentIsLogged(s)
    && UidsIssued(s)
    && PathsWellOwned(s)
    && RunsOk(s)
  }

  // ---------------------------------------------------------------------------
  // Preservation, one kind of change at a time
  // ---------------------------------------------------------------------------

  /** Nothing a run relies on is ever forgotten. */
  predicate Grows(s: State, t: State) {
    && s.policyLog <= t.policyLog && s.pathLog <= t.pathLog
    && s.peerNames <= t.peerNames && s.issued <= t.issued
  }

  lemma RunOkGrows(s: State, t: State, r: Run)
    requires Grows(s, t) && RunOk(s, r)
    ensures RunOk(t, r)
  {
  }

  lemma RunsOkGrow(s: State, t: State)
    requires Grows(s, t) && RunsOk(s) && t.runs == s.runs
    ensures RunsOk(t)
  {
    forall r <- t.runs
      ensures RunOk(t, r)
    {
      RunOkGrows(s, t, r);
    }
  }

  lemma PolicyLogExtends(log: set<(Key, Policy)>, nextRv: nat, k: Key, p: Policy)
    requires PolicyVersionsDistinct(log, nextRv) && p.rv == nextRv
    ensures PolicyVersionsDistinct(log + {(k, p)}, nextRv + 1)
  {
  }

  lemma PathLogExtends(log: set<(Key, ComputedPath)>, nextRv: nat, k: Key, v: ComputedPath)
    requires PathVersionsDistinct(log, nextRv) && v.rv == nextRv
    ensures PathVersionsDistinct(log + {(k, v)}, nextRv + 1)
  {
  }

  lemma UidsExtend(s: State, k: Key, p: Policy, t: State)
    requires UidsIssued(s) && t.policyLog == s.policyLog + {(k, p)}
    requires || (t.issued == s.issued && t.nextUid == s.nextUid && (p.uid, k) in s.issued)
             || (t.issued == s.issued + {(p.uid, k)} && p.uid == s.nextUid && t.nextUid == s.nextUid + 1)
    ensures UidsIssued(t)
  {
  }

  lemma PathsWellOwnedGrow(s: State, t: State)
    requires PathsWellOwned(s) && Grows(s, t) && t.pathLog == s.pathLog
    ensures PathsWellOwned(t)
  {
    forall x <- t.pathLog
      ensures WellOwned(t.issued, t.peerNames, x.0, x.1)
    {
      assert WellOwned(s.issued, s.peerNames, x.0, x.1);
    }
  }

  lemma LogsAfterPolicy(s: State, k: Key, p: Policy)
    requires CurrentIsLogged(s)
    ensures var t := Record(s, PutPolicy(s.cluster, k, p));
            && t.policyLog == s.policyLog + {(k, p.(rv := s.cluster.nextRv))}
            && t.pathLog == s.pathLog
            && CurrentIsLogged(t)
  {
  }

  lemma LogsAfterPath(s: State, k: Key, v: ComputedPath)
    requires CurrentIsLogged(s)
    ensures var t := Record(s, PutPath(s.cluster, k, v));
            && t.policyLog == s.policyLog
            && t.pathLog == s.pathLog + {(k, v.(rv := s.cluster.nextRv))}
            && CurrentIsLogged(t)
  {
  }

  lemma LogsAfterDrop(s: State, c: Cluster)
    requires CurrentIsLogged(s) && c.peers == s.cluster.peers
    requires forall k <- c.policies :: k in s.cluster.policies && c.policies[k] == s.cluster.policies[k]
    requires forall k <- c.paths :: k in s.cluster.paths && c.paths[k] == s.cluster.paths[k]
    ensures Record(s, c) == s.(cluster := c) && CurrentIsLogged(s.(cluster := c))
  {
    assert Record(s, c).policyLog == s.policyLog;
    assert Record(s, c).pathLog == s.pathLog;
  }

  /** Storing a policy, possibly one with a newly issued uid, keeps the invariant. */
  lemma PolicyStored(s: State, k: Key, p: Policy, t: State)
    requires Inv(s)
    requires t == Record(s, PutPolicy(s.cluster, k, p)).(issued := t.issued, nextUid := t.nextUid)
    requires || (t.issued == s.issued && t.nextUid == s.nextUid && (p.uid, k) in s.issued)
             || (t.issued == s.issued + {(p.uid, k)} && p.uid == s.nextUid && t.nextUid == s.nextUid + 1)
    ensures Inv(t)
  {
    LogsAfterPolicy(s, k, p);
    PolicyLogExtends(s.policyLog, s.cluster.nextRv, k, p.(rv := s.cluster.nextRv));
    UidsExtend(s, k, p.(rv := s.cluster.nextRv), t);
    PathsWellOwnedGrow(s, t);
    RunsOkGrow(s, t);
  }

  /** Removing objects keeps the invariant. */
  lemma Dropped(s: State, c: Cluster)
    requires Inv(s) && c.nextRv == s.cluster.nextRv && c.peers == s.cluster.peers
    requires forall k <- c.policies :: k in s.cluster.policies && c.policies[k] == s.cluster.policies[k]
    requires forall k <- c.paths :: k in s.cluster.paths && c.paths[k] == s.cluster.paths[k]
    ensures Inv(Record(s, c))
  {
    var t := Record(s, c);
    LogsAfterDrop(s, c);
    PathsWellOwnedGrow(s, t);
    RunsOkGrow(s, t);
  }

  lemma PathStored(s: State, k: Key, v: ComputedPath)
    requires Inv(s) && WellOwned(s.issued, s.peerNames, k, v)
    ensures Inv(Record(s, PutPath(s.cluster, k, v)))
  {
    LogsAfterPath(s, k, v);
    var t := Record(s, PutPath(s.cluster, k, v));
    assert t.issued == s.issued && t.nextUid == s.nextUid && t.peerNames == s.peerNames && t.runs == s.runs;
    assert t.cluster.nextRv == s.cluster.nextRv + 1;
    hide Record; hide PutPath; hide Inv;
    PathLogged(s, t, k, v);
  }

  lemma PathLogged(s: State, t: State, k: Key, v: ComputedPath)
    requires Inv(s) && WellOwned(s.issued, s.peerNames, k, v) && CurrentIsLogged(t)
    requires t.policyLog == s.policyLog && t.pathLog == s.pathLog + {(k, v.(rv := s.cluster.nextRv))}
    requires t.issued == s.issued && t.nextUid == s.nextUid && t.peerNames == s.peerNames && t.runs == s.runs
    requires t.cluster.nextRv == s.cluster.nextRv + 1
    ensures Inv(t)
  {
    hide WellOwned; hide RunsOk; hide PolicyVersionsDistinct; hide PathVersionsDistinct; hide CurrentIsLogged;
    hide UidsIssued; hide PathsWellOwned;
    var stored := v.(rv := s.cluster.nextRv);
    PathLogExtends(s.pathLog, s.cluster.nextRv, k, stored);
    StoredIsWellOwned(s, t, k, v, stored);
    SameUids(s, t);
    PolicyVersionsStay(s.policyLog, s.cluster.nextRv);
    RunsOkGrow(s, t);
  }

  lemma PolicyVersionsStay(log: set<(Key, Policy)>, nextRv: nat)
    requires PolicyVersionsDistinct(log, nextRv)
    ensures PolicyVersionsDistinct(log, nextRv + 1)
  {
  }

  lemma StoredIsWellOwned(s: State, t: State, k: Key, v: ComputedPath, stored: ComputedPath)
    requires PathsWellOwned(s) && WellOwned(s.issued, s.peerNames, k, v) && stored == v.(rv := stored.rv)
    requires t.issued == s.issued && t.peerNames == s.peerNames && t.pathLog == s.pathLog + {(k, stored)}
    ensures PathsWellOwned(t)
  {
    assert WellOwned(t.issued, t.peerNames, k, stored);
    hide WellOwned;
    forall x <- t.pathLog
      ensures WellOwned(t.issued, t.peerNames, x.0, x.1)
    {
      assert x in s.pathLog || x == (k, stored);
    }
  }

  lemma SameUids(s: State, t: State)
    requires UidsIssued(s) && t.policyLog == s.policyLog && t.issued == s.issued && t.nextUid == s.nextUid
    ensures UidsIssued(t)
  {
  }

  lemma Unrecorded(s: State)
    requires Inv(s)
    ensures Record(s, s.cluster) == s
  {
    LogsAfterDrop(s, s.cluster);
  }

  lemma RunIsOk(s: State, i: nat)
    requires Inv(s) && i < |s.runs|
    ensures RunOk(s, s.runs[i])
  {
  }

  lemma PhaseMoved(s: State, i: nat, phase: Phase)
    requires Inv(s) && i < |s.runs| && RunOk(s, s.runs[i].(phase := phase))
    ensures Inv(Moved(s, i, phase))
  {
    var t := Moved(s, i, phase);
    forall r <- t.runs
      ensures RunOk(t, r)
    {
      assert r in s.runs || r == s.runs[i].(phase := phase);
      RunOkGrows(s, t, r);
    }
  }

  /** The version a run is about to overwrite is the version it read. */
  lemma BaseIsCurrent(s: State, k: Key, base: ComputedPath)
    requires Inv(s) && (k, base) in s.pathLog
    requires k in s.cluster.paths && s.cluster.paths[k].rv == base.rv
    ensures s.cluster.paths[k] == base
  {
    assert (k, s.cluster.paths[k]) in s.pathLog;
  }

  lemma SnapIsCurrent(s: State, k: Key, snap: Policy)
    requires Inv(s) && (k, snap) in s.policyLog
    requires k in s.cluster.policies && s.cluster.policies[k].rv == snap.rv
    ensures s.cluster.policies[k] == snap
  {
    assert (k, s.cluster.policies[k]) in s.policyLog;
  }

  lemma WrittenIsWellOwned(s: State, r: Run)
    requires Inv(s) && r in s.runs && r.phase.Writing?
    requires Controllers(r.phase.obj.owners) <= 1
    ensures r.phase.work.More()
    ensures WellOwned(s.issued, s.peerNames, PathKey(r.key, r.phase.work.Peer()), r.phase.obj)
    ensures ControllerOf(r.phase.obj.owners) == Some(OwnerOf(r.key, r.phase.work.snap))
  {
    assert RunOk(s, r);
    var w := r.phase.work;
    UpsertMakesController(Owners(r.phase.base), OwnerOf(r.key, w.snap));
    assert w.Peer() in w.peers;
    assert ((r.key, w.snap)).1.uid == w.snap.uid;
  }

  lemma UpdateKeeps(s: State, k: Key, snap: Policy, next: Policy)
    requires Inv(s) && (k, snap) in s.policyLog && next == snap.(finalizers := next.finalizers)
    ensures var u := UpdatePolicy(s.cluster, k, next); u.Some? ==> Inv(Record(s, u.value))
  {
    var u := UpdatePolicy(s.cluster, k, next);
    if u.Some? {
      SnapIsCurrent(s, k, snap);
      Unrecorded(s);
      Dropped(s, DropPolicy(s.cluster, k));
      var q := next.(conditions := s.cluster.policies[k].conditions);
      assert ((k, snap)).1.uid == q.uid;
      PolicyStored(s, k, q, Record(s, PutPolicy(s.cluster, k, q)));
    }
  }

  lemma StatusKeeps(s: State, k: Key, p: Policy)
    requires Inv(s)
    ensures var u := UpdateStatus(s.cluster, k, p); u.Some? ==> Inv(Record(s, u.value))
  {
    var u := UpdateStatus(s.cluster, k, p);
    if u.Some? {
      Unrecorded(s);
      var q := s.cluster.policies[k].(conditions := p.conditions);
      assert (k, s.cluster.policies[k]) in s.policyLog;
      PolicyStored(s, k, q, Record(s, PutPolicy(s.cluster, k, q)));
    }
  }

  lemma WriteKeeps(s: State, r: Run)
    requires Inv(s) && r in s.runs && r.phase.Writing? && r.phase.work.More()
    ensures var u := WriteEffect(s.cluster, r.key, r.phase); u.Some? ==> Inv(Record(s, u.value))
  {
    var u := WriteEffect(s.cluster, r.key, r.phase);
    if u.Some? {
      WrittenIsWellOwned(s, r);
      PathStored(s, PathKey(r.key, r.phase.work.Peer()), r.phase.obj);
    }
  }

  // ---------------------------------------------------------------------------
  // Every step, every run
  // ---------------------------------------------------------------------------

  lemma EditKeeps(s: State, k: Key, p: Policy)
    requires Inv(s) && k in s.cluster.policies && p.uid == s.cluster.policies[k].uid
    ensures Inv(Record(s, PutPolicy(s.cluster, k, p)))
    ensures Inv(Record(s, DropPolicy(s.cluster, k)))
  {
    assert ((k, s.cluster.policies[k])).1.uid == p.uid;
    PolicyStored(s, k, p, Record(s, PutPolicy(s.cluster, k, p)));
    Dropped(s, DropPolicy(s.cluster, k));
  }

  lemma CreateStepKeeps(s: State, e: Event)
    requires Inv(s) && Enabled(s, e) && e.CreatePolicy?
    ensures Inv(Apply(s, e))
  {
    PolicyStored(s, e.key, Policy(s.nextUid, 0, 1, false, {}, e.spec, map[]), Apply(s, e));
  }

  /** The policy a user's edit stores. */
  function Edited(p: Policy, e: Event): Policy
    requires e.EditPolicy? || e.DeletePolicy? || e.SetFinalizers?
  {
    match e
    case EditPolicy(_, spec) => p.(spec := spec, generation := p.generation + 1)
    case DeletePolicy(_) => p.(deleting := true, generation := p.generation + 1)
    case SetFinalizers(_, finalizers) => p.(finalizers := finalizers)
  }

  lemma EditOutcomes(s: State, e: Event)
    requires Enabled(s, e) && (e.EditPolicy? || e.DeletePolicy? || e.SetFinalizers?)
    ensures e.key in s.cluster.policies
    ensures || Apply(s, e) == s
            || Apply(s, e) == Record(s, DropPolicy(s.cluster, e.key))
            || Apply(s, e) == Record(s, PutPolicy(s.cluster, e.key, Edited(s.cluster.policies[e.key], e)))
  {
  }

  lemma EditStepKeeps(s: State, e: Event)
    requires Inv(s) && Enabled(s, e) && (e.EditPolicy? || e.DeletePolicy? || e.SetFinalizers?)
    ensures Inv(Apply(s, e))
  {
    hide Inv; hide Enabled; hide Apply;
    EditOutcomes(s, e);
    EditKeeps(s, e.key, Edited(s.cluster.policies[e.key], e));
  }

  lemma OtherStepKeeps(s: State, e: Event)
    requires Inv(s) && Enabled(s, e) && !IsRunStep(e)
    requires !(e.CreatePolicy? || e.EditPolicy? || e.DeletePolicy? || e.SetFinalizers?)
    ensures Inv(Apply(s, e))
  {
    var t := Apply(s, e);
    match e
    case AddPeer(p) =>
      forall x <- t.pathLog
        ensures WellOwned(t.issued, t.peerNames, x.0, x.1)
      {
        assert WellOwned(s.issued, s.peerNames, x.0, x.1);
      }
      RunsOkGrow(s, t);
    case RemovePeer(_) => RunsOkGrow(s, t);
    case ForeignWrite(at, owners, spec) => PathStored(s, at, ComputedPath(0, owners, spec));
    case ForeignDelete(at) => Dropped(s, DropPath(s.cluster, at));
    case ForeignOwners(_) => RunsOkGrow(s, t);
    case Collect(at) => Dropped(s, DropPath(s.cluster, at));
    case Begin(k) =>
      forall r <- t.runs
        ensures RunOk(t, r)
      {
        assert r in s.runs || r == Run(k, Reading);
        RunOkGrows(s, t, if r in s.runs then r else Run(k, Reading));
      }
  }

  lemma SendKeeps(s: State, effect: Option<Cluster>, fault: Fault)
    requires Inv(s) && (effect.Some? ==> Inv(Record(s, effect.value)))
    ensures Inv(Record(s, Send(s.cluster, effect, fault).0))
    ensures Grows(s, Record(s, Send(s.cluster, effect, fault).0))
  {
    hide Inv; hide Entries;
    Unrecorded(s);
  }

  /** A run that has dealt with the current peer goes on correctly. */
  lemma NextPeerOk(s: State, t: State, key: Key, w: Work, a: Answer)
    requires WorkOk(s, key, w) && w.More() && Grows(s, t)
    ensures RunOk(t, Run(key, LoopHead(w.Then(a))))
  {
    assert WorkOk(t, key, w.Then(a));
  }

  lemma PutStepKeeps(s: State, e: Event)
    requires Inv(s) && Enabled(s, e) && e.Put?
    ensures Inv(Apply(s, e))
  {
    hide Inv;
    var r := s.runs[e.run];
    RunIsOk(s, e.run);
    var effect := UpdatePolicy(s.cluster, r.key, r.phase.next);
    UpdateKeeps(s, r.key, r.phase.snap, r.phase.next);
    SendKeeps(s, effect, e.fault);
    var (c, ok) := Send(s.cluster, effect, e.fault);
    PhaseMoved(Record(s, c), e.run, Finished(if ok then Done else Failed(ApiError)));
  }

  lemma ReportStepKeeps(s: State, e: Event)
    requires Inv(s) && Enabled(s, e) && e.Report?
    ensures Inv(Apply(s, e))
  {
    hide Inv;
    var r := s.runs[e.run];
    var effect := UpdateStatus(s.cluster, r.key, Activated(r.phase.work));
    StatusKeeps(s, r.key, Activated(r.phase.work));
    SendKeeps(s, effect, e.fault);
    var (c, ok) := Send(s.cluster, effect, e.fault);
    PhaseMoved(Record(s, c), e.run, Finished(if ok then Done else Failed(ApiError)));
  }

  lemma WriteStepKeeps(s: State, e: Event)
    requires Inv(s) && Enabled(s, e) && e.Write?
    ensures Inv(Apply(s, e))
  {
    hide Inv;
    var r := s.runs[e.run];
    RunIsOk(s, e.run);
    var w, a := r.phase.work, r.phase.answer;
    var effect := WriteEffect(s.cluster, r.key, r.phase);
    WriteKeeps(s, r);
    SendKeeps(s, effect, e.fault);
    var (c, ok) := Send(s.cluster, effect, e.fault);
    NextPeerOk(s, Record(s, c), r.key, w, a);
    PhaseMoved(Record(s, c), e.run, if ok then LoopHead(w.Then(a)) else Finished(Failed(ApiError)));
  }

  lemma ReadStepKeeps(s: State, e: Event)
    requires Inv(s) && Enabled(s, e) && (e.Get? || e.List? || e.Abort?)
    ensures Inv(Apply(s, e))
  {
    hide Inv;
    var r := s.runs[e.run];
    RunIsOk(s, e.run);
    match e
    case Get(i, seen) => PhaseMoved(s, i, AfterGet(seen));
    case List(i, peers) =>
      assert WorkOk(s, r.key, Work(r.key, r.phase.snap, peers, []));
      PhaseMoved(s, i, LoopHead(Work(r.key, r.phase.snap, peers, [])));
    case Abort(i) => PhaseMoved(s, i, Finished(Failed(ApiError)));
  }

  lemma FetchStepKeeps(s: State, e: Event)
    requires Inv(s) && Enabled(s, e) && e.Fetch?
    ensures Inv(Apply(s, e))
  {
    hide Inv;
    var r := s.runs[e.run];
    RunIsOk(s, e.run);
    NextPeerOk(s, s, r.key, r.phase.work, e.answer);
    PhaseMoved(s, e.run, AfterFetch(r.phase.work, e.answer));
  }

  lemma ProbeStepKeeps(s: State, e: Event)
    requires Inv(s) && Enabled(s, e) && e.Probe?
    ensures Inv(Apply(s, e))
  {
    hide Inv;
    var r := s.runs[e.run];
    RunIsOk(s, e.run);
    NextPeerOk(s, s, r.key, r.phase.work, r.phase.answer);
    PhaseMoved(s, e.run, AfterProbe(r.phase.work, r.phase.answer, e.found));
  }

  lemma StepKeeps(s: State, e: Event)
    requires Inv(s) && Enabled(s, e)
    ensures Inv(Apply(s, e))
  {
    hide Inv;
    hide Enabled;
    hide Apply;
    if e.CreatePolicy? {
      CreateStepKeeps(s, e);
    } else if e.EditPolicy? || e.DeletePolicy? || e.SetFinalizers? {
      EditStepKeeps(s, e);
    } else if !IsRunStep(e) {
      OtherStepKeeps(s, e);
    } else {
      match e
      case Put(_, _) => PutStepKeeps(s, e);
      case Write(_, _) => WriteStepKeeps(s, e);
      case Report(_, _) => ReportStepKeeps(s, e);
      case Fetch(_, _) => FetchStepKeeps(s, e);
      case Probe(_, _) => ProbeStepKeeps(s, e);
      case _ => ReadStepKeeps(s, e);
    }
  }

  lemma {:induction false} BehaviourKeeps(s: State, es: seq<Event>)
    requires Inv(s) && Behaviour(s, es)
    ensures Inv(After(s, es))
    decreases |es|
  {
    if es != [] {
      StepKeeps(s, es[0]);
      BehaviourKeeps(Apply(s, es[0]), es[1..]);
    }
  }

  // ---------------------------------------------------------------------------
  // What the invariant says to a user of the cluster
  // ---------------------------------------------------------------------------

  lemma InitHolds()
    ensures Inv(Init)
  {
  }

  /** In every reachable state a computed path under a policy's control has exactly one controlling
      owner, a policy that really had that uid in the path's namespace; the spec names that policy
      and the object's name is that policy's, the separator, and a peer of some time. */
  lemma ReachablePathsAreWellOwned(es: seq<Event>, at: Key)
    requires Behaviour(Init, es)
    requires at in After(Init, es).cluster.paths
    requires PolicyControlled(After(Init, es).cluster.paths[at])
    ensures var t := After(Init, es);
            var v := t.cluster.paths[at];
            var ref := ControllerOf(v.owners).value;
            && Controllers(v.owners) == 1
            && (ref.uid, Key(at.ns, ref.name)) in t.issued
            && v.spec.policyRef == ref.name
            && exists peer :: peer in t.peerNames && at.name == ComputedPathName(ref.name, peer)
  {
    InitHolds();
    BehaviourKeeps(Init, es);
    var t := After(Init, es);
    var v := t.cluster.paths[at];
    assert (at, v) in t.pathLog;
    assert WellOwned(t.issued, t.peerNames, at, v);
    assert NamedAfter(t.peerNames, at, ControllerOf(v.owners).value.name);
  }

  /** The path a run is about to write, and what it then holds. */
  predicate WroteItsOwn(s: State, t: State, r: Run, at: Key)
    requires at in t.cluster.paths
  {
    && r.phase.Writing? && r.phase.work.More() && r.phase.answer.Ready?
    && at == PathKey(r.key, r.phase.work.Peer())
    && (at in s.cluster.paths
        ==> !OwnedByAnother(s.cluster.paths[at].owners, OwnerOf(r.key, r.phase.work.snap)))
    && ControllerOf(t.cluster.paths[at].owners) == Some(OwnerOf(r.key, r.phase.work.snap))
    && Controllers(t.cluster.paths[at].owners) == 1
    && t.cluster.paths[at].spec.policyRef == r.key.name
    && t.cluster.paths[at].spec.destinationCidr == r.phase.work.Peer().podCIDR
    && t.cluster.paths[at].spec.nextHopIP == r.phase.answer.nextHopIP
    && t.cluster.paths[at].spec.hopFields == r.phase.answer.hopFields
  }

  /** No step of any run removes a computed path, and the only path it may change is the one of its
      own policy and current peer, which no other owner controlled at that very moment. */
  lemma RunsKeepToTheirOwn(s: State, e: Event, at: Key)
    requires Inv(s) && Enabled(s, e) && IsRunStep(e)
    ensures at in s.cluster.paths ==> at in Apply(s, e).cluster.paths
    ensures at in Apply(s, e).cluster.paths
            ==> || (at in s.cluster.paths && Apply(s, e).cluster.paths[at] == s.cluster.paths[at])
                || (e.Write? && WroteItsOwn(s, Apply(s, e), s.runs[e.run], at))
  {
    hide Inv;
    if e.Write? {
      WriteKeepsToItsOwn(s, e, at);
    } else {
      OnlyWritesTouchPaths(s, e);
    }
  }

  lemma OnlyWritesTouchPaths(s: State, e: Event)
    requires Enabled(s, e) && IsRunStep(e) && !e.Write?
    ensures Apply(s, e).cluster.paths == s.cluster.paths
  {
  }

  lemma WriteKeepsToItsOwn(s: State, e: Event, at: Key)
    requires Inv(s) && Enabled(s, e) && e.Write?
    ensures at in s.cluster.paths ==> at in Apply(s, e).cluster.paths
    ensures at in Apply(s, e).cluster.paths
            ==> || (at in s.cluster.paths && Apply(s, e).cluster.paths[at] == s.cluster.paths[at])
                || WroteItsOwn(s, Apply(s, e), s.runs[e.run], at)
  {
    WriteIsEnabled(s, e);
    hide Inv; hide Enabled; hide RunStepEnabled; hide Apply; hide ApplyRunStep; hide WroteItsOwn; hide LoopHead;
    var r := s.runs[e.run];
    var ph := r.phase;
    WriteStep(s, e.run, r.key, ph.work, ph.answer, ph.base, ph.obj, e.fault);
    WriteChangesItsOwn(s, Apply(s, e), r, e.fault, at);
  }

  lemma WriteChangesItsOwn(s: State, t: State, r: Run, fault: Fault, at: Key)
    requires Inv(s) && r in s.runs && r.phase.Writing? && r.phase.work.More()
    requires t.cluster == Send(s.cluster, WriteEffect(s.cluster, r.key, r.phase), fault).0
    ensures at in s.cluster.paths ==> at in t.cluster.paths
    ensures at in t.cluster.paths
            ==> || (at in s.cluster.paths && t.cluster.paths[at] == s.cluster.paths[at])
                || WroteItsOwn(s, t, r, at)
  {
    hide Inv;
    if WriteEffect(s.cluster, r.key, r.phase).Some? {
      WriteIsOverItsOwn(s, r);
    }
    hide OwnedByAnother; hide Controllers; hide ControllerOf; hide WriteEffect;
  }

  lemma WriteIsEnabled(s: State, e: Event)
    requires Enabled(s, e) && e.Write?
    ensures e.run < |s.runs| && s.runs[e.run].phase.Writing? && s.runs[e.run].phase.work.More()
  {
  }

  /** What an accepted write stores, and over what. */
  lemma WriteIsOverItsOwn(s: State, r: Run)
    requires Inv(s) && r in s.runs && r.phase.Writing? && r.phase.work.More()
    requires WriteEffect(s.cluster, r.key, r.phase).Some?
    ensures var k, ref := PathKey(r.key, r.phase.work.Peer()), OwnerOf(r.key, r.phase.work.snap);
            && r.phase.answer.Ready?
            && r.phase.obj.spec.policyRef == r.key.name
            && r.phase.obj.spec.destinationCidr == r.phase.work.Peer().podCIDR
            && r.phase.obj.spec.nextHopIP == r.phase.answer.nextHopIP
            && r.phase.obj.spec.hopFields == r.phase.answer.hopFields
            && ControllerOf(r.phase.obj.owners) == Some(ref) && Controllers(r.phase.obj.owners) == 1
            && (k in s.cluster.paths ==> !OwnedByAnother(s.cluster.paths[k].owners, ref))
            && WriteEffect(s.cluster, r.key, r.phase) == Some(PutPath(s.cluster, k, r.phase.obj))
  {
    assert RunOk(s, r);
    hide Inv;
    var k := PathKey(r.key, r.phase.work.Peer());
    WrittenIsWellOwned(s, r);
    UpsertMakesController(Owners(r.phase.base), OwnerOf(r.key, r.phase.work.snap));
    if r.phase.base.Some? {
      BaseIsCurrent(s, k, r.phase.base.value);
    }
  }

  /** Only a controller of another kind or name stops a write: a policy recreated under its old
      name takes its predecessor's paths over, whatever their uids. */
  lemma OwnedByAnotherIffOtherName(v: ComputedPath, key: Key, snap: Policy)
    requires Controllers(v.owners) <= 1
    ensures OwnedByAnother(v.owners, OwnerOf(key, snap))
       <==> ControllerOf(v.owners).Some?
            && ControllerOf(v.owners).value.(uid := 0) != OwnerOf(key, snap).(uid := 0)
    ensures !OwnedByAnother(v.owners, OwnerOf(key, snap))
            && Controllers(Upsert(v.owners, OwnerOf(key, snap))) <= 1
            ==> ControllerOf(Upsert(v.owners, OwnerOf(key, snap))) == Some(OwnerOf(key, snap))
  {
    ControllerControls(v.owners);
    if Controllers(Upsert(v.owners, OwnerOf(key, snap))) <= 1 {
      UpsertMakesController(v.owners, OwnerOf(key, snap));
    }
  }

  /** A policy recreated under its old name takes its predecessor's path over: a run for it that finds the
      path under the control of the old uid does not stop but writes, and afterwards the new uid controls
      the path and no owner has the old one. */
  lemma RecreatedPolicyTakesOver(s: State, i: nat, key: Key, w: Work, a: Answer, former: nat)
    requires Inv(s) && At(s, i, key, Probing(w, a)) && w.More() && a.Ready? && former != w.snap.uid
    requires PathKey(key, w.Peer()) in s.cluster.paths
    requires var owners := s.cluster.paths[PathKey(key, w.Peer())].owners;
             && ControllerOf(owners) == Some(OwnerRef(ScionPathPolicy, key.name, former, true))
             && (forall r <- owners :: SameObject(r, OwnerOf(key, w.snap)) ==> r.controller)
    ensures var at := PathKey(key, w.Peer());
            var probe := Probe(i, Some(s.cluster.paths[at]));
            && Enabled(s, probe)
            && var t := Apply(s, probe);
               && Enabled(t, Write(i, Sound))
               && var paths := Apply(t, Write(i, Sound)).cluster.paths;
                  && at in paths && paths[at].spec == Target(key, w.Peer(), a)
                  && ControllerOf(paths[at].owners) == Some(OwnerOf(key, w.snap))
                  && Controllers(paths[at].owners) == 1
                  && (forall r <- paths[at].owners :: SameObject(r, OwnerOf(key, w.snap)) ==> r.uid == w.snap.uid)
  {
    hide Inv; hide Enabled; hide Apply; hide LoopHead;
    RunIsOk(s, i);
    var at, ref := PathKey(key, w.Peer()), OwnerOf(key, w.snap);
    var v := s.cluster.paths[at];
    StoredIsLogged(s, at);
    ProbeStep(s, i, key, w, a, Some(v));
    var t := Apply(s, Probe(i, Some(v)));
    var obj := Mutated(Some(v), ref, Target(key, w.Peer(), a));
    UpsertAddsNoController(v.owners, ref);
    UpsertMakesController(v.owners, ref);
    UpsertLeavesOneReference(v.owners, ref);
    WriteStep(t, i, key, w, a, Some(v), obj.value, Sound);
  }

  lemma StoredIsLogged(s: State, at: Key)
    requires Inv(s) && at in s.cluster.paths
    ensures (at, s.cluster.paths[at]) in s.pathLog
    ensures Controllers(s.cluster.paths[at].owners) <= 1
  {
    assert WellOwned(s.issued, s.peerNames, at, s.cluster.paths[at]);
  }

  /** Where every policy ever created has an unambiguous name, no policy's path ever stands in
      another policy's way: AlreadyOwned can then only be raised by a foreign controller. */
  lemma UnambiguousPoliciesNeverConflict(s: State, key: Key, snap: Policy, peer: Peer)
    requires Inv(s) && Unambiguous(key.name)
    requires forall x <- s.issued :: Unambiguous(x.1.name)
    requires PathKey(key, peer) in s.cluster.paths
    requires PolicyControlled(s.cluster.paths[PathKey(key, peer)])
    ensures !OwnedByAnother(s.cluster.paths[PathKey(key, peer)].owners, OwnerOf(key, snap))
  {
    var at := PathKey(key, peer);
    var v := s.cluster.paths[at];
    var ref := ControllerOf(v.owners).value;
    assert (at, v) in s.pathLog;
    assert WellOwned(s.issued, s.peerNames, at, v);
    assert (ref.uid, Key(at.ns, ref.name)) in s.issued;
    assert Unambiguous(((ref.uid, Key(at.ns, ref.name))).1.name);
    assert NamedAfter(s.peerNames, at, ref.name);
    var other :| other in s.peerNames && at.name == ComputedPathName(ref.name, other);
    UnambiguousNamesNeverCollide(ref.name, other, key.name, peer.name);
  }
}
