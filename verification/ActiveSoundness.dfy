/** What the Active condition promises. It always speaks about the current generation of the policy. That
    every peer the run listed then has its computed path, with what the control service answered in that very
    run, takes three things: peers of distinct names, nobody else at the policy's paths, and no probe that
    shows what the run wants although it is not stored. With the first two the third is exact, and none of the
    three can be spared. */
module ActiveSoundness {
  import opened Options
  import opened Naming
  import opened Kube
  import opened Reconciling
  import opened Protocol
  import opened Safety
  import opened Finalizers

  /** The object names the policy `key` may produce. */
  predicate Targeted(key: Key, at: Key) {
    at.ns == key.ns && key.name + SEPARATOR <= at.name
  }

  predicate SameTargeted(c: Cluster, d: Cluster, key: Key) {
    && (forall at <- c.paths :: Targeted(key, at) ==> at in d.paths && d.paths[at] == c.paths[at])
    && (forall at <- d.paths :: Targeted(key, at) ==> at in c.paths)
  }

  function WorkOf(phase: Phase): Option<Work> {
    match phase
    case Fetching(w) => Some(w)
    case Probing(w, _) => Some(w)
    case Writing(w, _, _, _) => Some(w)
    case Reporting(w) => Some(w)
    case _ => None
  }

  /** The stored path of `peer` carries the answer `a` and is controlled by the policy that was read. */
  predicate Carries(c: Cluster, key: Key, snap: Policy, peer: Peer, a: Answer)
    requires a.Ready?
  {
    var at := PathKey(key, peer);
    && at in c.paths
    && c.paths[at].spec.policyRef == key.name && c.paths[at].spec.destinationCidr == peer.podCIDR
    && c.paths[at].spec.nextHopIP == a.nextHopIP && c.paths[at].spec.hopFields == a.hopFields
    && ControllerOf(c.paths[at].owners) == Some(OwnerOf(key, snap))
  }

  ghost predicate CarriesAll(c: Cluster, key: Key, w: Work) {
    forall j: nat :: j < |w.got| && j < |w.peers| && w.got[j].Ready? ==> Carries(c, key, w.snap, w.peers[j], w.got[j])
  }

  ghost predicate Progress(c: Cluster, r: Run) {
    var w := WorkOf(r.phase);
    w.Some? && DistinctNames(w.value.peers) ==> CarriesAll(c, r.key, w.value)
  }

  // ---------------------------------------------------------------------------
  // Following a run
  // ---------------------------------------------------------------------------

  /** What may be asked of a history in which run `i` is followed. */
  datatype Care = Care(trueProbes: bool, othersKeepOff: bool)

  const CALM := Care(true, true)

  /** Run `i` probes a path and sees what it wants, so it will not write. */
  predicate SeesItsWish(s: State, e: Event, i: nat)
    requires i < |s.runs| && Enabled(s, e)
  {
    e.Probe? && e.run == i
    && var r := s.runs[i];
       var w, a := r.phase.work, r.phase.answer;
       Mutated(e.found, OwnerOf(r.key, w.snap), Target(r.key, w.Peer(), a)) == e.found
  }

  /** Such a probe is true: the path is stored with what the run wants. A stale probe of any other kind leads
      to a write, and the version check catches it. */
  predicate ProbesTruly(s: State, e: Event, i: nat)
    requires i < |s.runs| && Enabled(s, e)
  {
    SeesItsWish(s, e, i) ==>
      Carries(s.cluster, s.runs[i].key, s.runs[i].phase.work.snap, s.runs[i].phase.work.Peer(), s.runs[i].phase.answer)
  }

  /** Nobody but run `i` touches its policy's paths. */
  predicate OthersKeepOff(s: State, e: Event, i: nat)
    requires i < |s.runs| && Enabled(s, e)
  {
    (IsRunStep(e) && e.run == i) || SameTargeted(s.cluster, Apply(s, e).cluster, s.runs[i].key)
  }

  predicate Careful(s: State, e: Event, i: nat, care: Care)
    requires i < |s.runs| && Enabled(s, e)
  {
    && (care.trueProbes ==> ProbesTruly(s, e, i))
    && (care.othersKeepOff ==> OthersKeepOff(s, e, i))
  }

  /** With that care, `es` leads from `s` to `t`. */
  predicate Follows(s: State, es: seq<Event>, i: nat, care: Care, t: State)
    decreases |es|
  {
    i < |s.runs|
    && if es == [] then s == t
       else Enabled(s, es[0]) && Careful(s, es[0], i, care) && Follows(Apply(s, es[0]), es[1..], i, care, t)
  }

  lemma {:induction false} FollowsIsBehaviour(s: State, es: seq<Event>, i: nat, care: Care, t: State)
    requires Follows(s, es, i, care, t)
    ensures Behaviour(s, es) && After(s, es) == t && i < |t.runs|
    decreases |es|
  {
    hide Enabled; hide Apply; hide Careful;
    if es != [] {
      FollowsIsBehaviour(Apply(s, es[0]), es[1..], i, care, t);
    }
  }

  // ---------------------------------------------------------------------------
  // Preservation
  // ---------------------------------------------------------------------------

  lemma PathKeyTargeted(key: Key, peer: Peer)
    ensures Targeted(key, PathKey(key, peer))
  {
    assert PathKey(key, peer).name == (key.name + SEPARATOR) + peer.name;
  }

  lemma OthersKeepProgress(c: Cluster, d: Cluster, r: Run)
    requires Progress(c, r) && SameTargeted(c, d, r.key)
    ensures Progress(d, r)
  {
    var w := WorkOf(r.phase);
    if w.Some? && DistinctNames(w.value.peers) {
      forall j: nat | j < |w.value.got| && j < |w.value.peers| && w.value.got[j].Ready?
        ensures Carries(d, r.key, w.value.snap, w.value.peers[j], w.value.got[j])
      {
        assert Carries(c, r.key, w.value.snap, w.value.peers[j], w.value.got[j]);
        PathKeyTargeted(r.key, w.value.peers[j]);
      }
    }
  }

  /** Going on to the next peer: what was carried still is, and the last answer is if it is ready. */
  lemma NextPeerProgress(c: Cluster, d: Cluster, key: Key, w: Work, a: Answer)
    requires w.More() && DistinctNames(w.peers) ==> CarriesAll(c, key, w)
    requires w.More()
    requires a.Ready? ==> Carries(d, key, w.snap, w.Peer(), a)
    requires forall at <- c.paths :: at != PathKey(key, w.Peer()) ==> at in d.paths && d.paths[at] == c.paths[at]
    ensures Progress(d, Run(key, LoopHead(w.Then(a))))
  {
    if DistinctNames(w.peers) {
      var v := w.Then(a);
      forall j: nat | j < |v.got| && j < |v.peers| && v.got[j].Ready?
        ensures Carries(d, key, v.snap, v.peers[j], v.got[j])
      {
        if j < |w.got| {
          assert Carries(c, key, w.snap, w.peers[j], w.got[j]);
          if PathKey(key, w.peers[j]) == PathKey(key, w.Peer()) {
            NamesOfOnePolicyAreInjective(key.name, w.peers[j].name, key.name, w.Peer().name);
          }
        }
      }
    }
  }

  lemma MutatedCarries(c: Cluster, key: Key, w: Work, a: Answer, base: Option<ComputedPath>, v: ComputedPath)
    requires w.More() && a.Ready?
    requires Mutated(base, OwnerOf(key, w.snap), Target(key, w.Peer(), a))
             == Some(v.(rv := if base.Some? then base.value.rv else 0))
    requires Controllers(v.owners) <= 1
    requires PathKey(key, w.Peer()) in c.paths && c.paths[PathKey(key, w.Peer())] == v
    ensures Carries(c, key, w.snap, w.Peer(), a)
  {
    UpsertMakesController(Owners(base), OwnerOf(key, w.snap));
  }

  lemma WriteProgress(s: State, e: Event)
    requires Inv(s) && Enabled(s, e) && e.Write?
    requires Progress(s.cluster, s.runs[e.run])
    ensures Progress(Apply(s, e).cluster, Apply(s, e).runs[e.run])
  {
    WriteIsEnabled(s, e);
    hide Inv; hide Apply; hide Enabled; hide Progress;
    var r := s.runs[e.run];
    RunIsOk(s, e.run);
    var Writing(w, a, base, obj) := r.phase;
    WriteStep(s, e.run, r.key, w, a, base, obj, e.fault);
    WriteMoves(s.cluster, r, e.fault);
  }

  lemma WriteMoves(c: Cluster, r: Run, fault: Fault)
    requires r.phase.Writing? && r.phase.work.More() && r.phase.answer.Ready? && Progress(c, r)
    requires var Writing(w, a, base, obj) := r.phase;
             Mutated(base, OwnerOf(r.key, w.snap), Target(r.key, w.Peer(), a)) == Some(obj)
    ensures var Writing(w, a, base, obj) := r.phase;
            var (d, ok) := Send(c, StorePath(c, PathKey(r.key, w.Peer()), base, obj), fault);
            Progress(d, r.(phase := if ok then LoopHead(w.Then(a)) else Finished(Failed(ApiError))))
  {
    hide LoopHead;
    var Writing(w, a, base, obj) := r.phase;
    var at := PathKey(r.key, w.Peer());
    var (d, ok) := Send(c, StorePath(c, at, base, obj), fault);
    if ok {
      MutatedCarries(d, r.key, w, a, base, d.paths[at]);
      NextPeerProgress(c, d, r.key, w, a);
    }
  }

  /** A fresh probe is a true one. */
  lemma FreshProbesAreTrue(s: State, e: Event)
    requires Inv(s) && Enabled(s, e) && e.Probe?
    requires e.found == Find(s.cluster.paths, PathKey(s.runs[e.run].key, s.runs[e.run].phase.work.Peer()))
    ensures ProbesTruly(s, e, e.run)
  {
    var r := s.runs[e.run];
    RunIsOk(s, e.run);
    hide Inv; hide Apply; hide Enabled;
    var Probing(w, a) := r.phase;
    var at := PathKey(r.key, w.Peer());
    if SeesItsWish(s, e, e.run) {
      StoredIsLogged(s, at);
      MutatedCarries(s.cluster, r.key, w, a, e.found, e.found.value);
    }
  }

  lemma ProbeProgress(s: State, e: Event)
    requires Inv(s) && Enabled(s, e) && e.Probe? && ProbesTruly(s, e, e.run)
    requires Progress(s.cluster, s.runs[e.run])
    ensures Progress(Apply(s, e).cluster, Apply(s, e).runs[e.run])
  {
    var r := s.runs[e.run];
    RunIsOk(s, e.run);
    var Probing(w, a) := r.phase;
    ProbeStep(s, e.run, r.key, w, a, e.found);
    hide Inv; hide Apply; hide Enabled; hide Carries; hide CarriesAll; hide LoopHead;
    if SeesItsWish(s, e, e.run) {
      NextPeerProgress(s.cluster, s.cluster, r.key, w, a);
    }
  }

  lemma FetchProgress(s: State, e: Event)
    requires Enabled(s, e) && e.Fetch?
    requires Progress(s.cluster, s.runs[e.run])
    ensures Progress(Apply(s, e).cluster, Apply(s, e).runs[e.run])
  {
    var r := s.runs[e.run];
    FetchStep(s, e.run, r.key, r.phase.work, e.answer);
    hide Apply; hide Enabled;
    if e.answer.NotReady? {
      NextPeerProgress(s.cluster, s.cluster, r.key, r.phase.work, e.answer);
    }
  }

  lemma PlainStepProgress(s: State, e: Event)
    requires Enabled(s, e) && (e.Get? || e.Put? || e.List? || e.Report? || e.Abort?)
    ensures Progress(Apply(s, e).cluster, Apply(s, e).runs[e.run])
  {
  }

  lemma CalmStepProgress(s: State, e: Event, i: nat)
    requires Inv(s) && i < |s.runs| && Enabled(s, e) && Careful(s, e, i, CALM)
    requires Progress(s.cluster, s.runs[i])
    ensures i < |Apply(s, e).runs| && Apply(s, e).runs[i].key == s.runs[i].key
    ensures Progress(Apply(s, e).cluster, Apply(s, e).runs[i])
  {
    hide Inv; hide Apply; hide Enabled; hide Progress;
    if IsRunStep(e) {
      RunStepFrame(s, e);
    } else {
      EnvironmentFrame(s, e);
    }
    if IsRunStep(e) && e.run == i {
      match e
      case Write(_, _) => WriteProgress(s, e);
      case Probe(_, _) => ProbeProgress(s, e);
      case Fetch(_, _) => FetchProgress(s, e);
      case _ => PlainStepProgress(s, e);
    } else {
      OthersKeepProgress(s.cluster, Apply(s, e).cluster, s.runs[i]);
    }
  }

  lemma {:induction false} CalmKeepsProgress(s: State, es: seq<Event>, i: nat, t: State)
    requires Inv(s) && Follows(s, es, i, CALM, t)
    requires Progress(s.cluster, s.runs[i])
    ensures Inv(t) && i < |t.runs| && t.runs[i].key == s.runs[i].key
    ensures Progress(t.cluster, t.runs[i])
    decreases |es|
  {
    hide Inv; hide Apply; hide Enabled; hide Progress; hide Careful;
    if es != [] {
      StepKeeps(s, es[0]);
      CalmStepProgress(s, es[0], i);
      CalmKeepsProgress(Apply(s, es[0]), es[1..], i, t);
    }
  }

  // ---------------------------------------------------------------------------
  // A peer once missed
  // ---------------------------------------------------------------------------

  ghost predicate Missed(c: Cluster, key: Key, w: Work) {
    !CarriesAll(c, key, w)
  }

  /** The run has missed a peer, or it has ended. */
  ghost predicate Lost(c: Cluster, r: Run) {
    match WorkOf(r.phase)
    case None => r.phase.Finished?
    case Some(w) => w.key == r.key && (DistinctNames(w.peers) ==> Missed(c, r.key, w))
  }

  lemma OthersKeepLost(c: Cluster, d: Cluster, r: Run)
    requires Lost(c, r) && SameTargeted(c, d, r.key)
    ensures Lost(d, r)
  {
    var o := WorkOf(r.phase);
    if o.Some? && DistinctNames(o.value.peers) {
      var w := o.value;
      var j: nat :| j < |w.got| && j < |w.peers| && w.got[j].Ready? && !Carries(c, r.key, w.snap, w.peers[j], w.got[j]);
      PathKeyTargeted(r.key, w.peers[j]);
      assert !Carries(d, r.key, w.snap, w.peers[j], w.got[j]);
    }
  }

  /** Going on to the next peer makes good no earlier one. */
  lemma NextPeerLost(c: Cluster, d: Cluster, key: Key, w: Work, a: Answer)
    requires w.More() && w.key == key && (DistinctNames(w.peers) ==> Missed(c, key, w))
    requires forall at <- d.paths :: at != PathKey(key, w.Peer()) ==> at in c.paths && c.paths[at] == d.paths[at]
    ensures Lost(d, Run(key, LoopHead(w.Then(a))))
  {
    var v := w.Then(a);
    if DistinctNames(w.peers) {
      var j: nat :| j < |w.got| && j < |w.peers| && w.got[j].Ready? && !Carries(c, key, w.snap, w.peers[j], w.got[j]);
      if PathKey(key, w.peers[j]) == PathKey(key, w.Peer()) {
        NamesOfOnePolicyAreInjective(key.name, w.peers[j].name, key.name, w.Peer().name);
      }
      assert v.got[j] == w.got[j];
      assert !Carries(d, key, v.snap, v.peers[j], v.got[j]);
    }
  }

  /** A probe that falsely shows what the run wants misses its peer. */
  lemma FalseProbeLoses(s: State, e: Event, i: nat)
    requires Inv(s) && i < |s.runs| && Enabled(s, e) && !ProbesTruly(s, e, i)
    ensures i < |Apply(s, e).runs| && Lost(Apply(s, e).cluster, Apply(s, e).runs[i])
  {
    var r := s.runs[i];
    RunIsOk(s, i);
    var Probing(w, a) := r.phase;
    ProbeStep(s, i, r.key, w, a, e.found);
    hide Inv; hide Apply; hide Enabled; hide Carries;
    var v := w.Then(a);
    assert v.got[|w.got|] == a && !Carries(s.cluster, r.key, v.snap, v.peers[|w.got|], v.got[|w.got|]);
  }

  lemma WriteLost(s: State, e: Event)
    requires Inv(s) && Enabled(s, e) && e.Write? && Lost(s.cluster, s.runs[e.run])
    ensures Lost(Apply(s, e).cluster, Apply(s, e).runs[e.run])
  {
    WriteIsEnabled(s, e);
    hide Inv; hide Apply; hide Enabled; hide LoopHead; hide Missed;
    var r := s.runs[e.run];
    var Writing(w, a, base, obj) := r.phase;
    WriteStep(s, e.run, r.key, w, a, base, obj, e.fault);
    var (c, ok) := Send(s.cluster, StorePath(s.cluster, PathKey(r.key, w.Peer()), base, obj), e.fault);
    if ok {
      NextPeerLost(s.cluster, c, r.key, w, a);
    }
  }

  lemma ProbeLost(s: State, e: Event)
    requires Inv(s) && Enabled(s, e) && e.Probe? && Lost(s.cluster, s.runs[e.run])
    ensures Lost(Apply(s, e).cluster, Apply(s, e).runs[e.run])
  {
    var r := s.runs[e.run];
    RunIsOk(s, e.run);
    var Probing(w, a) := r.phase;
    ProbeStep(s, e.run, r.key, w, a, e.found);
    hide Inv; hide Apply; hide Enabled; hide LoopHead; hide Missed;
    NextPeerLost(s.cluster, s.cluster, r.key, w, a);
  }

  lemma FetchLost(s: State, e: Event)
    requires Enabled(s, e) && e.Fetch? && Lost(s.cluster, s.runs[e.run])
    ensures Lost(Apply(s, e).cluster, Apply(s, e).runs[e.run])
  {
    var r := s.runs[e.run];
    FetchStep(s, e.run, r.key, r.phase.work, e.answer);
    hide Apply; hide Enabled; hide LoopHead; hide Missed;
    NextPeerLost(s.cluster, s.cluster, r.key, r.phase.work, e.answer);
  }

  lemma EndLost(s: State, e: Event)
    requires Enabled(s, e) && (e.Get? || e.Put? || e.List? || e.Report? || e.Abort?)
    requires Lost(s.cluster, s.runs[e.run])
    ensures Lost(Apply(s, e).cluster, Apply(s, e).runs[e.run])
  {
    hide Missed; hide LoopHead; hide AfterGet; hide Entries;
  }

  lemma StepLost(s: State, e: Event, i: nat)
    requires Inv(s) && i < |s.runs| && Enabled(s, e) && OthersKeepOff(s, e, i) && Lost(s.cluster, s.runs[i])
    ensures i < |Apply(s, e).runs| && Apply(s, e).runs[i].key == s.runs[i].key
    ensures Lost(Apply(s, e).cluster, Apply(s, e).runs[i])
  {
    hide Inv; hide Apply; hide Enabled; hide Lost;
    if IsRunStep(e) {
      RunStepFrame(s, e);
    } else {
      EnvironmentFrame(s, e);
    }
    if IsRunStep(e) && e.run == i {
      match e
      case Write(_, _) => WriteLost(s, e);
      case Probe(_, _) => ProbeLost(s, e);
      case Fetch(_, _) => FetchLost(s, e);
      case _ => EndLost(s, e);
    } else {
      OthersKeepLost(s.cluster, Apply(s, e).cluster, s.runs[i]);
    }
  }

  lemma {:induction false} StaysLost(s: State, es: seq<Event>, i: nat, t: State)
    requires Inv(s) && Follows(s, es, i, Care(false, true), t) && Lost(s.cluster, s.runs[i])
    ensures i < |t.runs| && t.runs[i].key == s.runs[i].key && Lost(t.cluster, t.runs[i])
    decreases |es|
  {
    hide Inv; hide Apply; hide Enabled; hide Lost; hide OthersKeepOff; hide ProbesTruly;
    if es != [] {
      StepKeeps(s, es[0]);
      StepLost(s, es[0], i);
      StaysLost(Apply(s, es[0]), es[1..], i, t);
    }
  }

  lemma KeyStays(s: State, e: Event, i: nat)
    requires i < |s.runs| && Enabled(s, e)
    ensures i < |Apply(s, e).runs| && Apply(s, e).runs[i].key == s.runs[i].key
  {
    hide Enabled; hide Apply;
    if IsRunStep(e) {
      RunStepFrame(s, e);
    } else {
      EnvironmentFrame(s, e);
    }
  }

  /** One false probe, and the run ends lost. */
  lemma {:induction false} FalseProbesLose(s: State, es: seq<Event>, i: nat, t: State)
    requires Inv(s) && Follows(s, es, i, Care(false, true), t) && !Follows(s, es, i, CALM, t)
    ensures i < |t.runs| && t.runs[i].key == s.runs[i].key && Lost(t.cluster, t.runs[i])
    decreases |es|
  {
    hide Inv; hide Apply; hide Enabled; hide Lost; hide OthersKeepOff; hide ProbesTruly;
    assert es != [];
    StepKeeps(s, es[0]);
    KeyStays(s, es[0], i);
    if ProbesTruly(s, es[0], i) {
      FalseProbesLose(Apply(s, es[0]), es[1..], i, t);
    } else {
      FalseProbeLoses(s, es[0], i);
      StaysLost(Apply(s, es[0]), es[1..], i, t);
    }
  }

  // ---------------------------------------------------------------------------
  // The theorems
  // ---------------------------------------------------------------------------

  /** The server takes the run's status update: it was sent, and the version check accepts it. The reply
      may still be lost. */
  predicate ReportLands(c: Cluster, key: Key, w: Work, fault: Fault) {
    !fault.Refused? && UpdateStatus(c, key, Activated(w)).Some?
  }

  /** The policy the run read is Active, unedited, for its current generation. */
  predicate ActiveFor(c: Cluster, key: Key, w: Work) {
    && key in c.policies
    && c.policies[key].uid == w.snap.uid && !c.policies[key].deleting
    && c.policies[key].spec == w.snap.spec
    && "Active" in c.policies[key].conditions
    && c.policies[key].conditions["Active"]
       == Condition(true, "PathsComputed", |w.peers|, c.policies[key].generation)
  }

  /** Every peer the run listed was ready, and its path carries what the run was told about it. */
  ghost predicate Served(c: Cluster, key: Key, w: Work) {
    && |w.got| == |w.peers|
    && forall j | 0 <= j < |w.peers| :: w.got[j].Ready? && Carries(c, key, w.snap, w.peers[j], w.got[j])
  }

  /** Run `i`, followed from its start through any interleaving with this care, has Active stored only when
      every peer it listed, of distinct names, is served. */
  lemma ActiveIsSound(s: State, es: seq<Event>, i: nat, t: State, w: Work, fault: Fault)
    requires Inv(s) && Follows(s, es, i, CALM, t) && s.runs[i].phase.Reading?
    requires i < |t.runs| && t.runs[i].phase == Reporting(w) && DistinctNames(w.peers)
    requires ReportLands(t.cluster, s.runs[i].key, w, fault)
    ensures Enabled(t, Report(i, fault))
    ensures var c := Apply(t, Report(i, fault)).cluster;
            ActiveFor(c, s.runs[i].key, w) && Served(c, s.runs[i].key, w)
    ensures var c, key := Apply(t, Report(i, fault)).cluster, s.runs[i].key;
            forall j | 0 <= j < |w.peers| ::
              var at := Key(key.ns, key.name + "-to-" + w.peers[j].name);
              && w.got[j].Ready? && at in c.paths
              && c.paths[at].spec.policyRef == key.name
              && c.paths[at].spec.destinationCidr == w.peers[j].podCIDR
              && c.paths[at].spec.nextHopIP == w.got[j].nextHopIP
              && c.paths[at].spec.hopFields == w.got[j].hopFields
  {
    hide Follows; hide Inv; hide Enabled; hide Apply; hide Carries; hide ActiveFor; hide ReportLands;
    CalmKeepsProgress(s, es, i, t);
    ReportSaves(t, i, w, fault);
    ServedShows(Apply(t, Report(i, fault)).cluster, t.runs[i].key, w);
  }

  /** Field by field, what it means that a peer is served. */
  lemma ServedShows(c: Cluster, key: Key, w: Work)
    requires Served(c, key, w)
    ensures forall j | 0 <= j < |w.peers| ::
              var at := Key(key.ns, key.name + "-to-" + w.peers[j].name);
              && w.got[j].Ready? && at in c.paths
              && c.paths[at].spec.policyRef == key.name
              && c.paths[at].spec.destinationCidr == w.peers[j].podCIDR
              && c.paths[at].spec.nextHopIP == w.got[j].nextHopIP
              && c.paths[at].spec.hopFields == w.got[j].hopFields
  {
  }

  /** True probes are just what it takes: while others keep off, and for distinct names, a run that has Active
      stored served every peer it listed if and only if it made no probe that falsely showed its wish. */
  lemma ActiveIsSoundIff(s: State, es: seq<Event>, i: nat, t: State, w: Work, fault: Fault)
    requires Inv(s) && Follows(s, es, i, Care(false, true), t) && s.runs[i].phase.Reading?
    requires i < |t.runs| && t.runs[i].phase == Reporting(w) && DistinctNames(w.peers)
    requires ReportLands(t.cluster, s.runs[i].key, w, fault)
    ensures Enabled(t, Report(i, fault))
    ensures var c := Apply(t, Report(i, fault)).cluster;
            && ActiveFor(c, s.runs[i].key, w)
            && (Served(c, s.runs[i].key, w) <==> Follows(s, es, i, CALM, t))
  {
    hide Follows; hide Inv; hide Behaviour; hide Enabled; hide Apply; hide Carries; hide ActiveFor; hide ReportLands;
    FollowsIsBehaviour(s, es, i, Care(false, true), t);
    BehaviourKeeps(s, es);
    if Follows(s, es, i, CALM, t) {
      ActiveIsSound(s, es, i, t, w, fault);
    } else {
      FalseProbesLose(s, es, i, t);
    }
    RunKeyStays(s, es, i, Care(false, true), t);
    ReportSaves(t, i, w, fault);
  }

  lemma {:induction false} RunKeyStays(s: State, es: seq<Event>, i: nat, care: Care, t: State)
    requires Follows(s, es, i, care, t)
    ensures i < |t.runs| && t.runs[i].key == s.runs[i].key
    decreases |es|
  {
    hide Enabled; hide Apply; hide Careful;
    if es != [] {
      KeyStays(s, es[0], i);
      RunKeyStays(Apply(s, es[0]), es[1..], i, care, t);
    }
  }

  lemma StatusLeavesPaths(c: Cluster, key: Key, w: Work, fault: Fault)
    requires ReportLands(c, key, w, fault)
    ensures var d := Send(c, UpdateStatus(c, key, Activated(w)), fault).0;
            && d.paths == c.paths && key in c.policies && key in d.policies
            && d.policies[key] == c.policies[key].(conditions := Activated(w).conditions, rv := d.policies[key].rv)
  {
  }

  /** A status update that lands makes the policy Active for its current generation, and leaves the paths. */
  lemma ReportSaves(t: State, i: nat, w: Work, fault: Fault)
    requires Inv(t) && i < |t.runs| && t.runs[i].phase == Reporting(w)
    requires ReportLands(t.cluster, t.runs[i].key, w, fault)
    ensures Enabled(t, Report(i, fault))
    ensures var c := Apply(t, Report(i, fault)).cluster;
            var key := t.runs[i].key;
            && ActiveFor(c, key, w)
            && |w.got| == |w.peers| && w.AllReady()
            && (Served(c, key, w) <==> CarriesAll(t.cluster, key, w))
  {
    hide Inv; hide Apply; hide Enabled;
    var key := t.runs[i].key;
    RunIsOk(t, i);
    ReportStep(t, i, key, w, fault);
    SnapIsCurrent(t, key, w.snap);
    StatusLeavesPaths(t.cluster, key, w, fault);
    assert forall j | 0 <= j < |w.got| :: w.got[j] in w.got;
  }
}
