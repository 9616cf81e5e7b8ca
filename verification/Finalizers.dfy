/** What the finalizer buys: with fresh reads, one run per policy at a time and nobody else touching
    the finalizer, no computed path is ever written for a policy that is gone. Without any one of the
    three one can be, and the garbage collector then cleans up (module Draining). */
module Finalizers {
  import opened Options
  import opened Naming
  import opened Kube
  import opened Reconciling
  import opened Protocol
  import opened Safety

  predicate InFlight(r: Run) {
    !r.phase.Finished?
  }

  predicate NoRunFor(s: State, key: Key) {
    forall r <- s.runs :: r.key == key ==> !InFlight(r)
  }

  /** The rules a history may keep to. */
  datatype Rules = Rules(freshReads: bool, oneAtATime: bool, ownFinalizer: bool)

  const STRICT := Rules(true, true, true)

  /** A Get answers with the stored policy, runs of one policy do not overlap, and only the reconciler
      adds or removes its finalizer: as far as the rules demand it. */
  predicate Obeys(s: State, e: Event, rules: Rules)
    requires Enabled(s, e)
  {
    match e
    case Begin(k) => rules.oneAtATime ==> NoRunFor(s, k)
    case Get(i, seen) => rules.freshReads ==> seen == Find(s.cluster.policies, s.runs[i].key)
    case SetFinalizers(k, fs) =>
      rules.ownFinalizer ==> (FINALIZER in s.cluster.policies[k].finalizers <==> FINALIZER in fs)
    case _ => true
  }

  predicate Disciplined(s: State, e: Event)
    requires Enabled(s, e)
  {
    Obeys(s, e, STRICT)
  }

  /** By the rules, `es` leads from `s` to `t`. */
  predicate Leads(s: State, es: seq<Event>, rules: Rules, t: State)
    decreases |es|
  {
    if es == [] then s == t
    else Enabled(s, es[0]) && Obeys(s, es[0], rules) && Leads(Apply(s, es[0]), es[1..], rules, t)
  }

  lemma {:induction false} LeadsIsBehaviour(s: State, es: seq<Event>, rules: Rules, t: State)
    requires Leads(s, es, rules, t)
    ensures Behaviour(s, es) && After(s, es) == t
    decreases |es|
  {
    hide Enabled; hide Apply; hide Obeys;
    if es != [] {
      LeadsIsBehaviour(Apply(s, es[0]), es[1..], rules, t);
    }
  }

  /** One more event at the end. */
  lemma {:induction false} LeadsOn(s: State, es: seq<Event>, rules: Rules, t: State, e: Event)
    requires Leads(s, es, rules, t) && Enabled(t, e) && Obeys(t, e, rules)
    ensures Leads(s, es + [e], rules, Apply(t, e))
    decreases |es|
  {
    hide Enabled; hide Apply; hide Obeys;
    if es == [] {
      assert [e][1..] == [];
      assert es + [e] == [e];
    } else {
      LeadsOn(Apply(s, es[0]), es[1..], rules, t, e);
      assert (es + [e])[1..] == es[1..] + [e];
    }
  }

  /** The policy a run past the finalizer phases works for. */
  function SnapOf(phase: Phase): Option<Policy> {
    match phase
    case Listing(snap) => Some(snap)
    case Fetching(w) => Some(w.snap)
    case Probing(w, _) => Some(w.snap)
    case Writing(w, _, _, _) => Some(w.snap)
    case Reporting(w) => Some(w.snap)
    case _ => None
  }

  /** The policy exists under the uid that was read, held by the finalizer. */
  predicate Held(c: Cluster, key: Key, uid: nat) {
    key in c.policies && c.policies[key].uid == uid && FINALIZER in c.policies[key].finalizers
  }

  predicate RunHeld(c: Cluster, r: Run) {
    SnapOf(r.phase).Some? ==> Held(c, r.key, SnapOf(r.phase).value.uid)
  }

  ghost predicate Apart(s: State) {
    forall i, j | 0 <= i < j < |s.runs| && s.runs[i].key == s.runs[j].key ::
      !(InFlight(s.runs[i]) && InFlight(s.runs[j]))
  }

  ghost predicate HoldInv(s: State) {
    && Apart(s)
    && (forall r <- s.runs :: RunHeld(s.cluster, r))
  }

  // ---------------------------------------------------------------------------
  // Preservation
  // ---------------------------------------------------------------------------

  /** A cluster change that takes no held policy away. */
  ghost predicate Keeps(c: Cluster, d: Cluster, key: Key) {
    forall uid: nat | Held(c, key, uid) :: Held(d, key, uid)
  }

  lemma EnvironmentKeeps(s: State, e: Event, key: Key)
    requires Enabled(s, e) && Disciplined(s, e) && !IsRunStep(e)
    ensures Keeps(s.cluster, Apply(s, e).cluster, key)
  {
  }

  lemma StatusKeepsHeld(c: Cluster, k: Key, p: Policy, fault: Fault, key: Key)
    ensures Keeps(c, Send(c, UpdateStatus(c, k, p), fault).0, key)
  {
  }

  lemma UpdateKeepsOthers(c: Cluster, k: Key, p: Policy, fault: Fault, key: Key)
    requires k != key
    ensures Keeps(c, Send(c, UpdatePolicy(c, k, p), fault).0, key)
  {
  }

  lemma WriteKeepsHeld(c: Cluster, k: Key, base: Option<ComputedPath>, v: ComputedPath, fault: Fault, key: Key)
    ensures Keeps(c, Send(c, StorePath(c, k, base, v), fault).0, key)
  {
  }

  /** Every step keeps every held policy that is not the stepping run's own. */
  lemma RunStepKeepsOthers(s: State, e: Event, key: Key)
    requires Enabled(s, e) && IsRunStep(e) && s.runs[e.run].key != key
    ensures Keeps(s.cluster, Apply(s, e).cluster, key)
  {
    var c, r := s.cluster, s.runs[e.run];
    match e
    case Put(_, fault) => UpdateKeepsOthers(c, r.key, r.phase.next, fault, key);
    case Report(_, fault) => StatusKeepsHeld(c, r.key, Activated(r.phase.work), fault, key);
    case Write(_, fault) => WriteStepKeepsHeld(s, e, key);
    case _ =>
  }

  lemma WriteStepKeepsHeld(s: State, e: Event, key: Key)
    requires Enabled(s, e) && e.Write?
    ensures Keeps(s.cluster, Apply(s, e).cluster, key)
  {
    var p := s.runs[e.run].phase;
    WriteKeepsHeld(s.cluster, PathKey(s.runs[e.run].key, p.work.Peer()), p.base, p.obj, e.fault, key);
  }

  /** Past its Get, a run never changes the policy it works for. */
  lemma SnapCarries(s: State, e: Event)
    requires Enabled(s, e) && IsRunStep(e) && !e.Get?
    ensures var next := SnapOf(Apply(s, e).runs[e.run].phase);
            next.Some? ==> !e.Put? && next == SnapOf(s.runs[e.run].phase)
  {
    hide UpdatePolicy; hide UpdateStatus; hide StorePath; hide Entries;
  }

  lemma StepKeepsHeld(s: State, e: Event, key: Key)
    requires Enabled(s, e) && IsRunStep(e) && !e.Put?
    ensures Keeps(s.cluster, Apply(s, e).cluster, key)
  {
    var c, r := s.cluster, s.runs[e.run];
    match e
    case Report(_, fault) => StatusKeepsHeld(c, r.key, Activated(r.phase.work), fault, key);
    case Write(_, fault) => WriteStepKeepsHeld(s, e, key);
    case _ =>
  }

  lemma FreshGetHolds(s: State, e: Event)
    requires Enabled(s, e) && Disciplined(s, e) && e.Get?
    ensures RunHeld(Apply(s, e).cluster, Apply(s, e).runs[e.run])
  {
  }

  /** The stepping run stays held, or is finished. */
  lemma StepperStaysHeld(s: State, e: Event)
    requires HoldInv(s) && Enabled(s, e) && Disciplined(s, e) && IsRunStep(e)
    ensures RunHeld(Apply(s, e).cluster, Apply(s, e).runs[e.run])
  {
    RunStepFrame(s, e);
    assert RunHeld(s.cluster, s.runs[e.run]);
    if e.Get? {
      FreshGetHolds(s, e);
    } else {
      SnapCarries(s, e);
      hide Enabled; hide Apply;
      if !e.Put? {
        StepKeepsHeld(s, e, s.runs[e.run].key);
      }
    }
  }

  lemma RunStepFrame(s: State, e: Event)
    requires Enabled(s, e) && IsRunStep(e)
    ensures e.run < |s.runs| == |Apply(s, e).runs|
    ensures Apply(s, e).runs[e.run].key == s.runs[e.run].key
    ensures forall i | 0 <= i < |s.runs| && i != e.run :: Apply(s, e).runs[i] == s.runs[i]
    ensures InFlight(s.runs[e.run])
  {
  }

  lemma HoldStepKeeps(s: State, e: Event)
    requires HoldInv(s) && Enabled(s, e) && Disciplined(s, e)
    ensures HoldInv(Apply(s, e))
  {
    hide Apply; hide Enabled; hide Disciplined;
    var t := Apply(s, e);
    if IsRunStep(e) {
      StepperStaysHeld(s, e);
      RunStepFrame(s, e);
      forall i | 0 <= i < |t.runs|
        ensures RunHeld(t.cluster, t.runs[i])
      {
        if i != e.run && SnapOf(t.runs[i].phase).Some? {
          assert RunHeld(s.cluster, s.runs[i]);
          assert InFlight(s.runs[i]);
          RunStepKeepsOthers(s, e, s.runs[i].key);
        }
      }
    } else {
      EnvironmentHoldKeeps(s, e);
    }
  }

  lemma EnvironmentFrame(s: State, e: Event)
    requires Enabled(s, e) && !IsRunStep(e)
    ensures Apply(s, e).runs == if e.Begin? then s.runs + [Run(e.key, Reading)] else s.runs
  {
  }

  lemma EnvironmentHoldKeeps(s: State, e: Event)
    requires HoldInv(s) && Enabled(s, e) && Disciplined(s, e) && !IsRunStep(e)
    ensures HoldInv(Apply(s, e))
  {
    var t := Apply(s, e);
    EnvironmentFrame(s, e);
    assert e.Begin? ==> NoRunFor(s, e.key);
    hide Apply; hide Enabled; hide Disciplined;
    forall r <- t.runs
      ensures RunHeld(t.cluster, r)
    {
      if r in s.runs {
        assert RunHeld(s.cluster, r);
        EnvironmentKeeps(s, e, r.key);
      }
    }
  }

  lemma {:induction false} DisciplineHolds(s: State, es: seq<Event>, t: State)
    requires Inv(s) && HoldInv(s) && Leads(s, es, STRICT, t)
    ensures Behaviour(s, es) && After(s, es) == t && Inv(t) && HoldInv(t)
    decreases |es|
  {
    hide Inv; hide HoldInv; hide Apply; hide Enabled; hide Obeys;
    if es != [] {
      StepKeeps(s, es[0]);
      assert Disciplined(s, es[0]);
      HoldStepKeeps(s, es[0]);
      DisciplineHolds(Apply(s, es[0]), es[1..], t);
    }
  }

  // ---------------------------------------------------------------------------
  // The discipline is enough
  // ---------------------------------------------------------------------------

  /** Finalizer safety: after any disciplined history, whatever path the next step of any run changes
      or creates belongs to a policy that exists, under that very uid, before and after the step. */
  lemma NoPathForADeadPolicy(es: seq<Event>, s: State, e: Event, at: Key)
    requires Leads(Init, es, STRICT, s)
    requires Enabled(s, e) && IsRunStep(e)
    requires at in Apply(s, e).cluster.paths
    requires at in s.cluster.paths ==> Apply(s, e).cluster.paths[at] != s.cluster.paths[at]
    ensures var t := Apply(s, e);
            var owner := ControllerOf(t.cluster.paths[at].owners);
            && owner.Some? && owner.value.kind == ScionPathPolicy
            && Alive(s, at.ns, owner.value) && Alive(t, at.ns, owner.value)
  {
    hide *;
    InitHolds();
    InitIsHeld();
    DisciplineHolds(Init, es, s);
    WriteIsForALivingPolicy(s, e, at);
  }

  lemma InitIsHeld()
    ensures HoldInv(Init)
  {
  }

  lemma WriteIsForALivingPolicy(s: State, e: Event, at: Key)
    requires Inv(s) && HoldInv(s) && Enabled(s, e) && IsRunStep(e)
    requires at in Apply(s, e).cluster.paths
    requires at in s.cluster.paths ==> Apply(s, e).cluster.paths[at] != s.cluster.paths[at]
    ensures var t := Apply(s, e);
            var owner := ControllerOf(t.cluster.paths[at].owners);
            && owner.Some? && owner.value.kind == ScionPathPolicy
            && Alive(s, at.ns, owner.value) && Alive(t, at.ns, owner.value)
  {
    RunsKeepToTheirOwn(s, e, at);
    RunStepFrame(s, e);
    hide Inv; hide Enabled; hide Apply;
    var r := s.runs[e.run];
    assert WroteItsOwn(s, Apply(s, e), r, at);
    assert RunHeld(s.cluster, r);
    hide Inv;
    WriteStepKeepsHeld(s, e, r.key);
  }

  // ---------------------------------------------------------------------------
  // Each rule is needed
  // ---------------------------------------------------------------------------

  /** A run that reads the version `past` of a policy gets as far as writing a path for it, and nothing
      stored changes on the way. */
  lemma RunGetsToWrite(s: State, key: Key, past: Policy, peer: Peer, a: Answer, rules: Rules)
    returns (es: seq<Event>, t: State)
    requires (key, past) in s.policyLog && NoRunFor(s, key)
    requires rules.freshReads ==> Find(s.cluster.policies, key) == Some(past)
    requires !past.deleting && FINALIZER in past.finalizers && past.spec.preference.Some?
    requires peer.name in s.peerNames && a.Ready?
    ensures Leads(s, es, rules, t) && |t.runs| == |s.runs| + 1
    ensures t == s.(runs := t.runs) && t.runs[..|s.runs|] == s.runs
    ensures At(t, |s.runs|, key, AboutToWrite(key, past, peer, a))
  {
    hide Enabled; hide Apply; hide Leads;
    var i, w := |s.runs|, Work(key, past, [peer], []);
    ObeyedByBegin(s, key, rules);
    Nowhere(s, rules);
    t := Apply(s, Begin(key));
    es := [] + [Begin(key)];
    LeadsOn(s, [], rules, s, Begin(key));
    BeginStep(s, key);
    GetStep(t, i, key, Some(past));
    es, t := Go(s, es, rules, t, Get(i, Some(past)));
    ListStep(t, i, key, past, [peer]);
    es, t := Go(s, es, rules, t, List(i, [peer]));
    FetchStep(t, i, key, w, a);
    es, t := Go(s, es, rules, t, Fetch(i, a));
    ProbeStep(t, i, key, w, a, None);
    es, t := Go(s, es, rules, t, Probe(i, None));
  }

  function AboutToWrite(key: Key, past: Policy, peer: Peer, a: Answer): Phase
    requires a.Ready?
  {
    Writing(Work(key, past, [peer], []), a, None, ComputedPath(0, [OwnerOf(key, past)], Target(key, peer, a)))
  }

  lemma ObeyedByBegin(s: State, key: Key, rules: Rules)
    requires NoRunFor(s, key)
    ensures Enabled(s, Begin(key)) && Obeys(s, Begin(key), rules)
  {
  }

  lemma Nowhere(s: State, rules: Rules)
    ensures Leads(s, [], rules, s)
  {
  }

  /** One more step of a history that keeps to the rules. */
  lemma Go(s: State, es: seq<Event>, rules: Rules, t: State, e: Event) returns (fs: seq<Event>, u: State)
    requires Leads(s, es, rules, t) && Enabled(t, e) && Obeys(t, e, rules)
    ensures fs == es + [e] && u == Apply(t, e) && Leads(s, fs, rules, u)
  {
    LeadsOn(s, es, rules, t, e);
    fs, u := es + [e], Apply(t, e);
  }

  /** A run about to write a path for a policy that is gone leaves an orphan behind. */
  lemma DeadWriteLeavesOrphan(s: State, i: nat, key: Key, past: Policy, peer: Peer, a: Answer)
    requires a.Ready? && At(s, i, key, AboutToWrite(key, past, peer, a))
    requires key !in s.cluster.policies && PathKey(key, peer) !in s.cluster.paths
    requires |PathKey(key, peer).name| <= MAX_NAME
    ensures Enabled(s, Write(i, Sound)) && Obeys(s, Write(i, Sound), STRICT)
    ensures var t := Apply(s, Write(i, Sound));
            PathKey(key, peer) in t.cluster.paths && Orphan(t, PathKey(key, peer))
  {
    var w := Work(key, past, [peer], []);
    var obj := ComputedPath(0, [OwnerOf(key, past)], Target(key, peer, a));
    WriteStep(s, i, key, w, a, None, obj, Sound);
    hide Enabled; hide Apply;
    assert Controllers([OwnerOf(key, past)]) == 1;
    var t := Apply(s, Write(i, Sound));
    assert t.cluster == PutPath(s.cluster, PathKey(key, peer), obj);
    assert t.cluster.paths[PathKey(key, peer)].owners == [OwnerOf(key, past)];
  }

  /** A policy with its finalizer and no other, no run and no path for the peer: the state, common enough,
      from which each broken rule does its harm. */
  ghost predicate Exposed(s: State, key: Key, peer: Peer, a: Answer) {
    && Inv(s) && NoRunFor(s, key) && key in s.cluster.policies
    && !s.cluster.policies[key].deleting && s.cluster.policies[key].finalizers == {FINALIZER}
    && s.cluster.policies[key].spec.preference.Some?
    && peer.name in s.peerNames && a.Ready?
    && PathKey(key, peer) !in s.cluster.paths && |PathKey(key, peer).name| <= MAX_NAME
  }

  /** The first two events of a cluster. */
  lemma PolicyAndPeer(key: Key, spec: PolicySpec, peer: Peer) returns (es: seq<Event>, t: State)
    ensures Leads(Init, es, STRICT, t) && t.runs == [] && t.peerNames == {peer.name}
    ensures t.cluster.paths == map[] && t.cluster.peers == [peer] && t.cluster.policies.Keys == {key}
    ensures var p := t.cluster.policies[key];
            p.spec == spec && !p.deleting && p.finalizers == {} && (key, p) in t.policyLog && p.conditions == map[]
  {
    hide Leads;
    Nowhere(Init, STRICT);
    es, t := Go(Init, [], STRICT, Init, CreatePolicy(key, spec));
    es, t := Go(Init, es, STRICT, t, AddPeer(peer));
  }

  /** That state is reached by a history that keeps to all the rules: a policy and a peer are created, and one
      run adds the finalizer. */
  lemma ExposedIsReachable(key: Key, spec: PolicySpec, peer: Peer, a: Answer) returns (es: seq<Event>, t: State)
    requires spec.preference.Some? && a.Ready? && |PathKey(key, peer).name| <= MAX_NAME
    ensures Leads(Init, es, STRICT, t) && Exposed(t, key, peer, a)
  {
    hide Leads; hide Inv; hide Enabled; hide Apply; hide Behaviour; hide After;
    es, t := PolicyAndPeer(key, spec, peer);
    var p := t.cluster.policies[key];
    var next := p.(finalizers := p.finalizers + {FINALIZER});
    ObeyedByBegin(t, key, STRICT);
    BeginStep(t, key);
    es, t := Go(Init, es, STRICT, t, Begin(key));
    GetStep(t, 0, key, Some(p));
    es, t := Go(Init, es, STRICT, t, Get(0, Some(p)));
    PutStep(t, 0, key, p, next, Sound);
    es, t := Go(Init, es, STRICT, t, Put(0, Sound));
    assert next.finalizers == {FINALIZER} && FINALIZER !in p.finalizers;
    InitHolds();
    LeadsIsBehaviour(Init, es, STRICT, t);
    BehaviourKeeps(Init, es);
  }

  lemma DeleteMarks(s: State, key: Key, rules: Rules)
    requires key in s.cluster.policies && !s.cluster.policies[key].deleting && s.cluster.policies[key].finalizers != {}
    ensures Enabled(s, DeletePolicy(key)) && Obeys(s, DeletePolicy(key), rules)
    ensures var t := Apply(s, DeletePolicy(key));
            && t == s.(cluster := t.cluster, policyLog := t.policyLog, pathLog := t.pathLog)
            && s.policyLog <= t.policyLog && t.cluster.paths == s.cluster.paths
            && key in t.cluster.policies && (key, t.cluster.policies[key]) in t.policyLog
            && t.cluster.policies[key].deleting
            && t.cluster.policies[key].finalizers == s.cluster.policies[key].finalizers
  {
  }

  /** A fresh run that finds the policy under deletion with nothing but the finalizer removes it. */
  lemma RunDropsPolicy(s: State, es: seq<Event>, rules: Rules, t: State, key: Key)
    returns (fs: seq<Event>, u: State)
    requires Leads(s, es, rules, t) && key in t.cluster.policies && (key, t.cluster.policies[key]) in t.policyLog
    requires rules.oneAtATime ==> NoRunFor(t, key)
    requires t.cluster.policies[key].deleting && t.cluster.policies[key].finalizers == {FINALIZER}
    ensures Leads(s, fs, rules, u)
    ensures key !in u.cluster.policies && u.cluster.paths == t.cluster.paths
    ensures t.policyLog <= u.policyLog && u.peerNames == t.peerNames
    ensures |u.runs| == |t.runs| + 1 && u.runs[..|t.runs|] == t.runs && u.runs[|t.runs|] == Run(key, Finished(Done))
  {
    hide Leads;
    BeginStep(t, key);
    assert Obeys(t, Begin(key), rules);
    hide Enabled; hide Apply;
    var i, p := |t.runs|, t.cluster.policies[key];
    fs, u := Go(s, es, rules, t, Begin(key));
    GetStep(u, i, key, Some(p));
    fs, u := Go(s, fs, rules, u, Get(i, Some(p)));
    var next := p.(finalizers := p.finalizers - {FINALIZER});
    assert next.finalizers == {};
    PutStep(u, i, key, p, next, Sound);
    fs, u := Go(s, fs, rules, u, Put(i, Sound));
  }

  /** Without fresh reads, the other two rules in force: the user deletes the policy, a run lets it go, and
      the next one works for the old version it was handed. */
  lemma StaleReadLeavesOrphan(s: State, key: Key, peer: Peer, a: Answer) returns (es: seq<Event>, t: State)
    requires Exposed(s, key, peer, a)
    ensures Leads(s, es, Rules(false, true, true), t)
    ensures PathKey(key, peer) in t.cluster.paths && Orphan(t, PathKey(key, peer))
  {
    var rules := Rules(false, true, true);
    var past := s.cluster.policies[key];
    assert (key, past) in s.policyLog;
    hide Inv; hide Enabled; hide Apply; hide Leads; hide NoRunFor; hide Orphan; hide Obeys; hide AboutToWrite;
    DeleteMarks(s, key, rules);
    Nowhere(s, rules);
    es, t := Go(s, [], rules, s, DeletePolicy(key));
    es, t := RunDropsPolicy(s, es, rules, t, key);
    StillNoRun(s, t, key);
    var i := |t.runs|;
    var more, u := RunGetsToWrite(t, key, past, peer, a, rules);
    LeadsThen(s, es, rules, t, more, u);
    DeadWriteLeavesOrphan(u, i, key, past, peer, a);
    ObeyStrictObeyAll(u, Write(i, Sound), rules);
    es, t := Go(s, es + more, rules, u, Write(i, Sound));
  }

  lemma StillNoRun(s: State, t: State, key: Key)
    requires NoRunFor(s, key) && |t.runs| == |s.runs| + 1 && t.runs[..|s.runs|] == s.runs
    requires !InFlight(t.runs[|s.runs|])
    ensures NoRunFor(t, key)
  {
    assert t.runs == s.runs + [t.runs[|s.runs|]];
  }

  lemma ObeyStrictObeyAll(s: State, e: Event, rules: Rules)
    requires Enabled(s, e) && Obeys(s, e, STRICT)
    ensures Obeys(s, e, rules)
  {
  }

  lemma {:induction false} LeadsThen(s: State, es: seq<Event>, rules: Rules, t: State, fs: seq<Event>, u: State)
    requires Leads(s, es, rules, t) && Leads(t, fs, rules, u)
    ensures Leads(s, es + fs, rules, u)
    decreases |es|
  {
    hide Enabled; hide Apply; hide Obeys;
    if es == [] {
      assert es + fs == fs;
    } else {
      LeadsThen(Apply(s, es[0]), es[1..], rules, t, fs, u);
      assert (es + fs)[1..] == es[1..] + fs;
    }
  }

  /** Without one run at a time, the other two rules in force: while a run is about to write, the user
      deletes the policy and a second run lets it go. */
  lemma OverlapLeavesOrphan(s: State, key: Key, peer: Peer, a: Answer) returns (es: seq<Event>, t: State)
    requires Exposed(s, key, peer, a)
    ensures Leads(s, es, Rules(true, false, true), t)
    ensures PathKey(key, peer) in t.cluster.paths && Orphan(t, PathKey(key, peer))
  {
    var rules := Rules(true, false, true);
    var i, past := |s.runs|, s.cluster.policies[key];
    assert (key, past) in s.policyLog;
    hide Inv; hide Enabled; hide Apply; hide Leads;
    es, t := RunGetsToWrite(s, key, past, peer, a, rules);
    DeleteMarks(t, key, rules);
    es, t := Go(s, es, rules, t, DeletePolicy(key));
    ghost var before := t;
    es, t := RunDropsPolicy(s, es, rules, t, key);
    assert t.runs[i] == t.runs[..|before.runs|][i] == before.runs[i];
    DeadWriteLeavesOrphan(t, i, key, past, peer, a);
    ObeyStrictObeyAll(t, Write(i, Sound), rules);
    es, t := Go(s, es, rules, t, Write(i, Sound));
  }

  lemma FinalizerTaken(s: State, key: Key)
    requires key in s.cluster.policies && s.cluster.policies[key].deleting
    ensures Enabled(s, SetFinalizers(key, {})) && Obeys(s, SetFinalizers(key, {}), Rules(true, true, false))
    ensures var t := Apply(s, SetFinalizers(key, {}));
            && key !in t.cluster.policies && t.cluster.paths == s.cluster.paths && t.runs == s.runs
  {
  }

  /** Without the finalizer to itself, the other two rules in force: while a run is about to write, the user
      deletes the policy and somebody else takes the finalizer off. */
  lemma ForeignFinalizerLeavesOrphan(s: State, key: Key, peer: Peer, a: Answer) returns (es: seq<Event>, t: State)
    requires Exposed(s, key, peer, a)
    ensures Leads(s, es, Rules(true, true, false), t)
    ensures PathKey(key, peer) in t.cluster.paths && Orphan(t, PathKey(key, peer))
  {
    var rules := Rules(true, true, false);
    var i, past := |s.runs|, s.cluster.policies[key];
    assert (key, past) in s.policyLog;
    hide Inv; hide Enabled; hide Apply; hide Leads;
    es, t := RunGetsToWrite(s, key, past, peer, a, rules);
    DeleteMarks(t, key, rules);
    es, t := Go(s, es, rules, t, DeletePolicy(key));
    FinalizerTaken(t, key);
    es, t := Go(s, es, rules, t, SetFinalizers(key, {}));
    DeadWriteLeavesOrphan(t, i, key, past, peer, a);
    ObeyStrictObeyAll(t, Write(i, Sound), rules);
    es, t := Go(s, es, rules, t, Write(i, Sound));
  }
}
