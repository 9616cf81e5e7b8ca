/** What ActiveSoundness asks for cannot be spared: without true probes, without others keeping off, or
    without distinct names, each time with the other two given, a run has Active stored while a peer it listed
    is not served. The states where that begins come about in the ordinary course of things. */
module ActiveLimits {
  import opened Options
  import opened Naming
  import opened Kube
  import opened Reconciling
  import opened Protocol
  import opened Safety
  import opened Finalizers
  import opened ActiveSoundness

  // ---------------------------------------------------------------------------
  // Nothing of this can be spared
  // ---------------------------------------------------------------------------

  /** Run `i` has just begun, for a policy that a fresh read will send on to the peers. */
  predicate Poised(s: State, i: nat, key: Key) {
    && At(s, i, key, Reading) && key in s.cluster.policies
    && var p := s.cluster.policies[key];
       (key, p) in s.policyLog && !p.deleting && FINALIZER in p.finalizers && p.spec.preference.Some?
  }

  /** With this care the run comes to report, its report lands and makes the policy Active, and a peer that
      the run listed is not served. */
  ghost predicate Misleads(s: State, es: seq<Event>, i: nat, care: Care, t: State, w: Work) {
    && Follows(s, es, i, care, t)
    && i < |t.runs| && t.runs[i].phase == Reporting(w)
    && ReportLands(t.cluster, t.runs[i].key, w, Sound) && Enabled(t, Report(i, Sound))
    && var c := Apply(t, Report(i, Sound)).cluster;
       ActiveFor(c, t.runs[i].key, w) && !Served(c, t.runs[i].key, w)
  }

  lemma {:induction false} FollowsOn(s: State, es: seq<Event>, i: nat, care: Care, t: State, e: Event)
    requires Follows(s, es, i, care, t) && i < |t.runs| && Enabled(t, e) && Careful(t, e, i, care)
    ensures i < |Apply(t, e).runs|
    ensures Follows(s, es + [e], i, care, Apply(t, e))
    decreases |es|
  {
    hide Enabled; hide Apply; hide Careful;
    KeyStays(t, e, i);
    if es == [] {
      assert [e][1..] == [];
      assert es + [e] == [e];
    } else {
      FollowsOn(Apply(s, es[0]), es[1..], i, care, t, e);
      assert (es + [e])[1..] == es[1..] + [e];
    }
  }

  /** One more step of the run itself. */
  lemma Onward(s: State, es: seq<Event>, i: nat, care: Care, t: State, e: Event) returns (fs: seq<Event>, u: State)
    requires Follows(s, es, i, care, t) && i < |t.runs| && Enabled(t, e) && IsRunStep(e) && e.run == i
    requires care.trueProbes && e.Probe? ==> ProbesTruly(t, e, i)
    ensures u == Apply(t, e) && Follows(s, fs, i, care, u)
  {
    OwnStepIsCareful(t, e, i, care);
    FollowsOn(s, es, i, care, t, e);
    fs, u := es + [e], Apply(t, e);
  }

  lemma OwnStepIsCareful(s: State, e: Event, i: nat, care: Care)
    requires i < |s.runs| && Enabled(s, e) && IsRunStep(e) && e.run == i
    requires care.trueProbes && e.Probe? ==> ProbesTruly(s, e, i)
    ensures Careful(s, e, i, care)
  {
    hide Enabled; hide Apply;
  }

  /** A probe that finds nothing always sends the run on to write. */
  lemma ProbeOfNothing(s: State, i: nat, key: Key, w: Work, a: Answer)
    requires At(s, i, key, Probing(w, a)) && w.More() && a.Ready?
    ensures Enabled(s, Probe(i, None)) && ProbesTruly(s, Probe(i, None), i)
  {
  }

  lemma NothingYet(s: State, i: nat, care: Care)
    requires i < |s.runs|
    ensures Follows(s, [], i, care, s)
  {
  }

  /** A poised run gets as far as probing the first peer's path, with nothing stored on the way. */
  lemma RunGetsToProbe(s: State, i: nat, key: Key, peers: seq<Peer>, a: Answer, care: Care)
    returns (es: seq<Event>, t: State)
    requires Poised(s, i, key) && peers != [] && a.Ready? && forall p <- peers :: p.name in s.peerNames
    ensures Follows(s, es, i, care, t)
    ensures t == s.(runs := t.runs) && At(t, i, key, Probing(Work(key, s.cluster.policies[key], peers, []), a))
  {
    hide Enabled; hide Apply; hide Follows; hide ProbesTruly;
    var p := s.cluster.policies[key];
    NothingYet(s, i, care);
    GetStep(s, i, key, Some(p));
    es, t := Onward(s, [], i, care, s, Get(i, Some(p)));
    ListStep(t, i, key, p, peers);
    es, t := Onward(s, es, i, care, t, List(i, peers));
    FetchStep(t, i, key, Work(key, p, peers, []), a);
    es, t := Onward(s, es, i, care, t, Fetch(i, a));
  }

  /** A report on a policy that is stored as it was read, with a peer that is not served. */
  lemma UnservedReport(s: State, es: seq<Event>, i: nat, care: Care, t: State, w: Work, j: nat)
    requires Follows(s, es, i, care, t) && i < |t.runs| && t.runs[i].phase == Reporting(w)
    requires Find(t.cluster.policies, t.runs[i].key) == Some(w.snap) && !w.snap.deleting
    requires j < |w.got| == |w.peers| && w.got[j].Ready?
    requires !Carries(t.cluster, t.runs[i].key, w.snap, w.peers[j], w.got[j])
    ensures Misleads(s, es, i, care, t, w)
  {
    hide Enabled; hide Apply; hide Follows;
    var key := t.runs[i].key;
    ReportStep(t, i, key, w, Sound);
    assert ReportLands(t.cluster, key, w, Sound);
    StatusLeavesPaths(t.cluster, key, w, Sound);
    var c := Apply(t, Report(i, Sound)).cluster;
    assert !Carries(c, key, w.snap, w.peers[j], w.got[j]);
  }

  /** Without true probes, others keeping off and one peer only: when the control service goes back to an
      earlier answer, and the cache to the path of that time, the run writes nothing and reports. */
  lemma StaleProbeMisleads(s: State, i: nat, key: Key, peer: Peer, a: Answer, was: ComputedPath)
    returns (es: seq<Event>, t: State, w: Work)
    requires Poised(s, i, key) && peer.name in s.peerNames && a.Ready?
    requires (PathKey(key, peer), was) in s.pathLog
    requires Mutated(Some(was), OwnerOf(key, s.cluster.policies[key]), Target(key, peer, a)) == Some(was)
    requires !Carries(s.cluster, key, s.cluster.policies[key], peer, a)
    ensures w.peers == [peer] && Misleads(s, es, i, Care(false, true), t, w)
  {
    hide Enabled; hide Apply; hide Follows; hide ProbesTruly; hide Misleads; hide Carries; hide Mutated;
    var care, p := Care(false, true), s.cluster.policies[key];
    es, t := RunGetsToProbe(s, i, key, [peer], a, care);
    var first := Work(key, p, [peer], []);
    ProbeStep(t, i, key, first, a, Some(was));
    es, t := Onward(s, es, i, care, t, Probe(i, Some(was)));
    w := first.Then(a);
    SameCarries(s.cluster, t.cluster, key, p, peer, a);
    UnservedReport(s, es, i, care, t, w, 0);
  }

  lemma SameCarries(c: Cluster, d: Cluster, key: Key, snap: Policy, peer: Peer, a: Answer)
    requires a.Ready? && c.paths == d.paths
    ensures Carries(c, key, snap, peer, a) == Carries(d, key, snap, peer, a)
  {
  }

  /** A run that found no path writes it, and goes on to the next peer. */
  lemma RunWritesNew(s: State, es: seq<Event>, i: nat, care: Care, t: State, key: Key, w: Work, a: Answer)
    returns (fs: seq<Event>, u: State)
    requires Follows(s, es, i, care, t) && At(t, i, key, Probing(w, a)) && w.More() && a.Ready? && w.key == key
    requires PathKey(key, w.Peer()) !in t.cluster.paths && |PathKey(key, w.Peer()).name| <= MAX_NAME
    ensures Follows(s, fs, i, care, u) && At(u, i, key, LoopHead(w.Then(a)))
    ensures var at := PathKey(key, w.Peer());
            && u.cluster.policies == t.cluster.policies && u.peerNames == t.peerNames
            && u.cluster.paths.Keys == t.cluster.paths.Keys + {at}
            && u.cluster.paths[at].owners == [OwnerOf(key, w.snap)]
            && u.cluster.paths[at].spec == Target(key, w.Peer(), a)
            && (at, u.cluster.paths[at]) in u.pathLog
  {
    hide Enabled; hide Apply; hide Follows; hide ProbesTruly; hide LoopHead;
    var at := PathKey(key, w.Peer());
    var obj := ComputedPath(0, [OwnerOf(key, w.snap)], Target(key, w.Peer(), a));
    ProbeOfNothing(t, i, key, w, a);
    ProbeStep(t, i, key, w, a, None);
    fs, u := Onward(s, es, i, care, t, Probe(i, None));
    assert Controllers([OwnerOf(key, w.snap)]) == 1;
    WriteStep(u, i, key, w, a, None, obj, Sound);
    fs, u := Onward(s, fs, i, care, u, Write(i, Sound));
    assert u.cluster == PutPath(t.cluster, at, obj);
  }

  /** Without others keeping off, true probes and one peer only: somebody deletes the path between the run's
      write and its report. */
  lemma OtherHandsMislead(s: State, i: nat, key: Key, peer: Peer, a: Answer)
    returns (es: seq<Event>, t: State, w: Work)
    requires Poised(s, i, key) && peer.name in s.peerNames && a.Ready?
    requires PathKey(key, peer) !in s.cluster.paths && |PathKey(key, peer).name| <= MAX_NAME
    ensures w.peers == [peer] && Misleads(s, es, i, Care(true, false), t, w)
  {
    hide Enabled; hide Apply; hide Follows; hide ProbesTruly; hide Misleads;
    var care, p, at := Care(true, false), s.cluster.policies[key], PathKey(key, peer);
    es, t := RunGetsToProbe(s, i, key, [peer], a, care);
    var first := Work(key, p, [peer], []);
    es, t := RunWritesNew(s, es, i, care, t, key, first, a);
    w := first.Then(a);
    DeletedPath(t, i, at);
    FollowsOn(s, es, i, care, t, ForeignDelete(at));
    es, t := es + [ForeignDelete(at)], Apply(t, ForeignDelete(at));
    UnservedReport(s, es, i, care, t, w, 0);
  }

  lemma DeletedPath(s: State, i: nat, at: Key)
    requires i < |s.runs| && at in s.cluster.paths
    ensures Enabled(s, ForeignDelete(at)) && Careful(s, ForeignDelete(at), i, Care(true, false))
    ensures var t := Apply(s, ForeignDelete(at));
            && t.runs == s.runs && t.cluster.policies == s.cluster.policies && at !in t.cluster.paths
  {
  }

  /** Without distinct names, in a calm history with fresh probes: two peers of one name that want different
      paths, and the second takes the path of the first. */
  lemma SharedNameMisleads(s: State, i: nat, key: Key, one: Peer, two: Peer, a: Answer, b: Answer)
    returns (es: seq<Event>, t: State, w: Work)
    requires Poised(s, i, key) && one.name in s.peerNames && one.name == two.name && a.Ready? && b.Ready?
    requires Target(key, one, a) != Target(key, two, b)
    requires PathKey(key, one) !in s.cluster.paths && |PathKey(key, one).name| <= MAX_NAME
    ensures w.peers == [one, two] && Misleads(s, es, i, CALM, t, w)
  {
    hide Enabled; hide Apply; hide Follows; hide ProbesTruly; hide Misleads;
    var p, at := s.cluster.policies[key], PathKey(key, one);
    es, t := RunGetsToProbe(s, i, key, [one, two], a, CALM);
    var first := Work(key, p, [one, two], []);
    es, t := RunWritesNew(s, es, i, CALM, t, key, first, a);
    var second := first.Then(a);
    FetchStep(t, i, key, second, b);
    es, t := Onward(s, es, i, CALM, t, Fetch(i, b));
    es, t := RunRewrites(s, es, i, CALM, t, key, second, b);
    w := second.Then(b);
    UnservedReport(s, es, i, CALM, t, w, 0);
  }

  /** A run that finds its own path with other contents writes it anew. */
  lemma RunRewrites(s: State, es: seq<Event>, i: nat, care: Care, t: State, key: Key, w: Work, a: Answer)
    returns (fs: seq<Event>, u: State)
    requires Follows(s, es, i, care, t) && At(t, i, key, Probing(w, a)) && w.More() && a.Ready? && w.key == key
    requires PathKey(key, w.Peer()) in t.cluster.paths
    requires var v := t.cluster.paths[PathKey(key, w.Peer())];
             && v.owners == [OwnerOf(key, w.snap)] && v.spec != Target(key, w.Peer(), a)
             && (PathKey(key, w.Peer()), v) in t.pathLog
    ensures Follows(s, fs, i, care, u) && At(u, i, key, LoopHead(w.Then(a)))
    ensures u.cluster.policies == t.cluster.policies && PathKey(key, w.Peer()) in u.cluster.paths
    ensures u.cluster.paths[PathKey(key, w.Peer())].spec == Target(key, w.Peer(), a)
  {
    hide Enabled; hide Apply; hide Follows; hide LoopHead;
    var at, ref := PathKey(key, w.Peer()), OwnerOf(key, w.snap);
    var v := t.cluster.paths[at];
    assert Upsert([ref], ref) == [ref] && ControllerOf([ref]) == Some(ref) && Controllers([ref]) == 1;
    var obj := ComputedPath(v.rv, [ref], Target(key, w.Peer(), a));
    assert Mutated(Some(v), ref, Target(key, w.Peer(), a)) == Some(obj);
    ProbeStep(t, i, key, w, a, Some(v));
    fs, u := Onward(s, es, i, care, t, Probe(i, Some(v)));
    WriteStep(u, i, key, w, a, Some(v), obj, Sound);
    fs, u := Onward(s, fs, i, care, u, Write(i, Sound));
    assert u.cluster == PutPath(t.cluster, at, obj);
  }

  // ---------------------------------------------------------------------------
  // And it comes about
  // ---------------------------------------------------------------------------

  /** A new run for an exposed policy is poised, before an absent path. */
  lemma ExposedIsPoised(s: State, key: Key, peer: Peer, a: Answer)
    requires Exposed(s, key, peer, a)
    ensures Enabled(s, Begin(key)) && Poised(Apply(s, Begin(key)), |s.runs|, key)
    ensures Apply(s, Begin(key)).cluster == s.cluster && Apply(s, Begin(key)).peerNames == s.peerNames
  {
    BeginStep(s, key);
  }

  lemma BehaviourOn(s: State, es: seq<Event>, t: State, e: Event) returns (fs: seq<Event>, u: State)
    requires Behaviour(s, es) && After(s, es) == t && Enabled(t, e)
    ensures u == Apply(t, e) && Behaviour(s, fs) && After(s, fs) == u
  {
    hide Enabled; hide Apply;
    assert [e][1..] == [];
    BehaviourConcat(s, es, [e]);
    fs, u := es + [e], Apply(t, e);
  }

  lemma BehaviourFollows(s: State, es: seq<Event>, t: State, fs: seq<Event>, i: nat, u: State) returns (gs: seq<Event>)
    requires Behaviour(s, es) && After(s, es) == t && Follows(t, fs, i, CALM, u)
    ensures Behaviour(s, gs) && After(s, gs) == u
  {
    FollowsIsBehaviour(t, fs, i, CALM, u);
    hide Enabled; hide Apply; hide Follows;
    BehaviourConcat(s, es, fs);
    gs := es + fs;
  }

  /** The harm of a stale probe comes about from any exposed state: one run stores a first answer, a second run
      another one, and then the control service goes back to the first. */
  lemma StaleProbeComesAbout(s: State, key: Key, peer: Peer, a: Answer, b: Answer)
    returns (es: seq<Event>, t: State, i: nat, was: ComputedPath)
    requires Exposed(s, key, peer, a) && b.Ready? && Target(key, peer, a) != Target(key, peer, b)
    ensures Behaviour(s, es) && After(s, es) == t
    ensures Poised(t, i, key) && peer.name in t.peerNames && (PathKey(key, peer), was) in t.pathLog
    ensures Mutated(Some(was), OwnerOf(key, t.cluster.policies[key]), Target(key, peer, a)) == Some(was)
    ensures !Carries(t.cluster, key, t.cluster.policies[key], peer, a)
  {
    hide Enabled; hide Apply; hide Follows; hide Behaviour; hide After; hide Inv; hide NoRunFor;
    var at, p := PathKey(key, peer), s.cluster.policies[key];
    var w := Work(key, p, [peer], []);
    assert (key, p) in s.policyLog by { PolicyIsLogged(s, key); }
    NoEvents(s);
    es, t := [], s;
    i := |t.runs|;
    BeginStep(t, key);
    es, t := BehaviourOn(s, es, t, Begin(key));
    var fs, u := RunGetsToProbe(t, i, key, [peer], a, CALM);
    fs, u := RunWritesNew(t, fs, i, CALM, u, key, w, a);
    LogsGrow(t, fs, i, u);
    es := BehaviourFollows(s, es, t, fs, i, u);
    was := u.cluster.paths[at];
    assert Upsert([OwnerOf(key, p)], OwnerOf(key, p)) == [OwnerOf(key, p)];

    i := |u.runs|;
    BeginStep(u, key);
    es, t := BehaviourOn(s, es, u, Begin(key));
    fs, u := RunGetsToProbe(t, i, key, [peer], b, CALM);
    fs, u := RunRewrites(t, fs, i, CALM, u, key, w, b);
    LogsGrow(t, fs, i, u);
    es := BehaviourFollows(s, es, t, fs, i, u);

    i := |u.runs|;
    BeginStep(u, key);
    es, t := BehaviourOn(s, es, u, Begin(key));
  }

  lemma NoEvents(s: State)
    ensures Behaviour(s, []) && After(s, []) == s
  {
  }

  lemma PolicyIsLogged(s: State, key: Key)
    requires Inv(s) && key in s.cluster.policies
    ensures (key, s.cluster.policies[key]) in s.policyLog
  {
  }

  lemma LogGrows(s: State, e: Event)
    requires Enabled(s, e)
    ensures s.pathLog <= Apply(s, e).pathLog && s.policyLog <= Apply(s, e).policyLog
    ensures s.peerNames <= Apply(s, e).peerNames
  {
    hide Entries; hide Send;
  }

  /** What was ever stored stays logged. */
  lemma {:induction false} LogsGrow(s: State, es: seq<Event>, i: nat, t: State)
    requires Follows(s, es, i, CALM, t)
    ensures s.pathLog <= t.pathLog && s.policyLog <= t.policyLog && s.peerNames <= t.peerNames
    decreases |es|
  {
    hide Enabled; hide Apply; hide Careful;
    if es != [] {
      LogGrows(s, es[0]);
      LogsGrow(Apply(s, es[0]), es[1..], i, t);
    }
  }
}
