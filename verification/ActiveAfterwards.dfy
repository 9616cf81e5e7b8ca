/** What becomes of Active, and of the paths it was about: it is never cleared, and they stay until somebody
    deletes or something collects them. */
module ActiveAfterwards {
  import opened Options
  import opened Kube
  import opened Reconciling
  import opened Protocol
  import opened Safety
  import opened ActiveSoundness

  // ---------------------------------------------------------------------------
  // Afterwards
  // ---------------------------------------------------------------------------

  predicate IsActive(c: Cluster, key: Key, uid: nat) {
    && key in c.policies && c.policies[key].uid == uid
    && ACTIVE in c.policies[key].conditions && c.policies[key].conditions[ACTIVE].status
  }

  /** The policy is gone for good, or active. */
  predicate StaysActive(s: State, key: Key, uid: nat) {
    && uid < s.nextUid
    && (key in s.cluster.policies && s.cluster.policies[key].uid == uid ==> IsActive(s.cluster, key, uid))
  }

  lemma StatusStaysActive(c: Cluster, k: Key, w: Work, fault: Fault, key: Key, uid: nat)
    requires IsActive(c, key, uid)
    ensures IsActive(Send(c, UpdateStatus(c, k, Activated(w)), fault).0, key, uid)
  {
  }

  /** The uid a key had before `e`, or the one it is given. */
  predicate UidKept(s: State, t: State, e: Event, key: Key) {
    && t.nextUid >= s.nextUid
    && (key in t.cluster.policies ==>
          if e.CreatePolicy? && e.key == key then t.cluster.policies[key].uid == s.nextUid
          else key in s.cluster.policies && t.cluster.policies[key].uid == s.cluster.policies[key].uid)
  }

  lemma UpdateKeepsUid(c: Cluster, k: Key, p: Policy, fault: Fault, key: Key)
    requires k in c.policies && c.policies[k].rv == p.rv ==> p.uid == c.policies[k].uid
    ensures var d := Send(c, UpdatePolicy(c, k, p), fault).0;
            key in d.policies ==> key in c.policies && d.policies[key].uid == c.policies[key].uid
  {
  }

  lemma UpdatingIsOfSnap(s: State, e: Event)
    requires Inv(s) && Enabled(s, e) && e.Put?
    ensures e.run < |s.runs| && s.runs[e.run].phase.Updating?
    ensures var r := s.runs[e.run];
            r.key in s.cluster.policies && s.cluster.policies[r.key].rv == r.phase.next.rv
            ==> r.phase.next.uid == s.cluster.policies[r.key].uid
  {
    var r := s.runs[e.run];
    RunIsOk(s, e.run);
    hide Inv;
    if r.key in s.cluster.policies && s.cluster.policies[r.key].rv == r.phase.next.rv {
      SnapIsCurrent(s, r.key, r.phase.snap);
    }
  }

  lemma PutKeepsUid(s: State, e: Event, key: Key)
    requires Inv(s) && Enabled(s, e) && e.Put?
    ensures UidKept(s, Apply(s, e), e, key)
  {
    UpdatingIsOfSnap(s, e);
    hide Inv; hide Enabled; hide Apply; hide UpdatePolicy; hide Send;
    var r := s.runs[e.run];
    PutStep(s, e.run, r.key, r.phase.snap, r.phase.next, e.fault);
    UpdateKeepsUid(s.cluster, r.key, r.phase.next, e.fault, key);
  }

  lemma OthersKeepUid(s: State, e: Event, key: Key)
    requires Enabled(s, e) && !e.Put?
    ensures UidKept(s, Apply(s, e), e, key)
  {
  }

  lemma ActiveSticks(s: State, e: Event, key: Key, uid: nat)
    requires Enabled(s, e) && IsActive(s.cluster, key, uid)
    requires key in Apply(s, e).cluster.policies && Apply(s, e).cluster.policies[key].uid == uid
    ensures IsActive(Apply(s, e).cluster, key, uid)
  {
    if e.Report? {
      var r := s.runs[e.run];
      ReportStep(s, e.run, r.key, r.phase.work, e.fault);
      hide Enabled; hide Apply; hide Activated; hide UpdateStatus; hide Send;
      StatusStaysActive(s.cluster, r.key, r.phase.work, e.fault, key, uid);
    } else if IsRunStep(e) {
      RunStepSticks(s, e, key, uid);
    }
  }

  lemma StoreLeavesPolicies(c: Cluster, k: Key, base: Option<ComputedPath>, v: ComputedPath)
    ensures var u := StorePath(c, k, base, v); u.Some? ==> u.value.policies == c.policies
  {
  }

  lemma RunStepSticks(s: State, e: Event, key: Key, uid: nat)
    requires Enabled(s, e) && IsRunStep(e) && !e.Report? && IsActive(s.cluster, key, uid)
    requires key in Apply(s, e).cluster.policies && Apply(s, e).cluster.policies[key].uid == uid
    ensures IsActive(Apply(s, e).cluster, key, uid)
  {
    hide LoopHead; hide AfterGet; hide AfterProbe; hide UpdateStatus; hide Entries; hide StorePath;
    if e.Write? {
      var r := s.runs[e.run];
      StoreLeavesPolicies(s.cluster, PathKey(r.key, r.phase.work.Peer()), r.phase.base, r.phase.obj);
    }
  }

  lemma StepStaysActive(s: State, e: Event, key: Key, uid: nat)
    requires Inv(s) && Enabled(s, e) && StaysActive(s, key, uid)
    ensures StaysActive(Apply(s, e), key, uid)
  {
    hide Inv; hide Enabled; hide Apply;
    if e.Put? {
      PutKeepsUid(s, e, key);
    } else {
      OthersKeepUid(s, e, key);
    }
    if key in Apply(s, e).cluster.policies && Apply(s, e).cluster.policies[key].uid == uid {
      ActiveSticks(s, e, key, uid);
    }
  }

  lemma {:induction false} BehaviourStaysActive(s: State, es: seq<Event>, key: Key, uid: nat)
    requires Inv(s) && Behaviour(s, es) && StaysActive(s, key, uid)
    ensures StaysActive(After(s, es), key, uid)
    decreases |es|
  {
    if es != [] {
      StepKeeps(s, es[0]);
      StepStaysActive(s, es[0], key, uid);
      hide Inv; hide Enabled; hide Apply; hide StaysActive;
      BehaviourStaysActive(Apply(s, es[0]), es[1..], key, uid);
    }
  }

  /** Active is never cleared: whatever happens later, to the policy's spec, to its peers, to its paths,
      the policy stays Active for as long as it exists. */
  lemma ActiveIsNeverCleared(s: State, es: seq<Event>, key: Key, uid: nat)
    requires Inv(s) && Behaviour(s, es) && IsActive(s.cluster, key, uid)
    requires key in After(s, es).cluster.policies && After(s, es).cluster.policies[key].uid == uid
    ensures IsActive(After(s, es).cluster, key, uid)
  {
    assert (key, s.cluster.policies[key]) in s.policyLog;
    assert ((key, s.cluster.policies[key])).1.uid == uid;
    BehaviourStaysActive(s, es, key, uid);
  }

  // ---------------------------------------------------------------------------
  // How long the paths last
  // ---------------------------------------------------------------------------

  predicate Removes(e: Event, at: Key) {
    e == ForeignDelete(at) || e == Collect(at)
  }

  lemma RunStepKeepsPath(s: State, e: Event, at: Key)
    requires Inv(s) && Enabled(s, e) && IsRunStep(e) && at in s.cluster.paths
    ensures at in Apply(s, e).cluster.paths
  {
    hide Inv; hide Enabled; hide Apply;
    RunsKeepToTheirOwn(s, e, at);
  }

  /** One step takes a stored path away if and only if it is a deletion or a collection of that path. */
  lemma PathGoesIffRemoved(s: State, e: Event, at: Key)
    requires Inv(s) && Enabled(s, e) && at in s.cluster.paths
    ensures at !in Apply(s, e).cluster.paths <==> Removes(e, at)
  {
    if IsRunStep(e) {
      hide Inv; hide Enabled; hide Apply;
      RunStepKeepsPath(s, e, at);
    } else {
      EnvironmentKeepsPath(s, e, at);
    }
  }

  lemma EnvironmentKeepsPath(s: State, e: Event, at: Key)
    requires Enabled(s, e) && !IsRunStep(e) && at in s.cluster.paths
    ensures at !in Apply(s, e).cluster.paths <==> Removes(e, at)
  {
  }

  /** The path is stored before `es` and after each of its events. */
  predicate StoredThroughout(s: State, es: seq<Event>, at: Key)
    requires Behaviour(s, es)
    decreases |es|
  {
    at in s.cluster.paths && (es == [] || StoredThroughout(Apply(s, es[0]), es[1..], at))
  }

  /** Through any behaviour a stored path stays if and only if nobody deletes and nothing collects it. */
  lemma {:induction false} PathLastsIff(s: State, es: seq<Event>, at: Key)
    requires Inv(s) && Behaviour(s, es) && at in s.cluster.paths
    ensures StoredThroughout(s, es, at) <==> forall e <- es :: !Removes(e, at)
    decreases |es|
  {
    hide Inv; hide Enabled; hide Apply; hide Removes;
    if es != [] {
      var t := Apply(s, es[0]);
      StepKeeps(s, es[0]);
      PathGoesIffRemoved(s, es[0], at);
      assert es == [es[0]] + es[1..];
      if at in t.cluster.paths {
        PathLastsIff(t, es[1..], at);
      } else {
        assert es[0] in es;
      }
    }
  }

  /** Active outlives the paths it was about: wherever an active policy serves a peer, the collector may not
      take the peer's path, but anybody may delete it, and the policy is Active as before. */
  lemma ActiveOutlivesPath(s: State, key: Key, snap: Policy, peer: Peer, a: Answer)
    requires a.Ready? && Carries(s.cluster, key, snap, peer, a) && IsActive(s.cluster, key, snap.uid)
    ensures var at := PathKey(key, peer);
            && !Enabled(s, Collect(at))
            && Enabled(s, ForeignDelete(at))
            && at !in Apply(s, ForeignDelete(at)).cluster.paths
            && IsActive(Apply(s, ForeignDelete(at)).cluster, key, snap.uid)
  {
    var at := PathKey(key, peer);
    ControllerIsAnOwner(s.cluster.paths[at].owners);
    assert Alive(s, at.ns, OwnerOf(key, snap));
  }
}
