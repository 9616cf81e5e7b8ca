/** Whole runs from reachable states: collision-free names are what a full run needs, and the protocol
    can always go on to Active. */
module Reachable {
  import opened Options
  import opened Naming
  import opened Kube
  import opened Reconciling
  import Selectors
  import Protocol
  import Safety
  import Plans
  import Retries
  import Alone
  import Finalizers

  /** At the plan's keys lie no paths under foreign control, and where the policy is among the owners it is
      as their controller. */
  ghost predicate NothingForeign(c: Cluster, p: Plans.Plan)
    requires p.Valid()
  {
    forall j: nat | j < |p.peers| && p.answers[j].Ready? && p.At(j) in c.paths ::
      var v := c.paths[p.At(j)];
      && (ControllerOf(v.owners).Some? ==> Protocol.PolicyControlled(v))
      && (forall r <- v.owners :: SameObject(r, p.Ref()) ==> r.controller)
  }

  /** The names of the policy and of each ready peer leave room for the separator, or the path is there. */
  ghost predicate NamesFit(c: Cluster, p: Plans.Plan)
    requires p.Valid()
  {
    forall j: nat | j < |p.peers| && p.answers[j].Ready? ::
      p.At(j) in c.paths || |p.key.name| + 4 + |p.peers[j].name| <= MAX_NAME
  }

  /** In a reachable state where every policy name ever used is unambiguous, and nothing foreign lies at the
      plan's keys, the API server accepts everything the plan writes if and only if the names fit. */
  lemma UnambiguousIsAcceptable(s: Protocol.State, p: Plans.Plan)
    requires Safety.Inv(s) && p.Valid() && Unambiguous(p.key.name)
    requires forall x <- s.issued :: Unambiguous(x.1.name)
    requires NothingForeign(s.cluster, p)
    ensures Retries.Acceptable(Plans.Contents(s.cluster.paths), p) <==> NamesFit(s.cluster, p)
  {
    var m := Plans.Contents(s.cluster.paths);
    forall j: nat | j < |p.peers| && p.answers[j].Ready?
      ensures Retries.AcceptableAt(m, p, p.At(j))
              <==> p.At(j) in s.cluster.paths || |p.key.name| + 4 + |p.peers[j].name| <= MAX_NAME
    {
      OwnershipIsAcceptable(s, p, j);
      assert |p.At(j).name| == |p.key.name| + 4 + |p.peers[j].name|;
    }
    hide Safety.Inv; hide Plans.Contents; hide Retries.AcceptableAt; hide NothingForeign;
  }

  lemma OwnershipIsAcceptable(s: Protocol.State, p: Plans.Plan, j: nat)
    requires Safety.Inv(s) && p.Valid() && Unambiguous(p.key.name)
    requires forall x <- s.issued :: Unambiguous(x.1.name)
    requires NothingForeign(s.cluster, p) && j < |p.peers| && p.answers[j].Ready?
    ensures var owners := Plans.OwnersAt(Plans.Contents(s.cluster.paths), p.At(j));
            !OwnedByAnother(owners, p.Ref()) && Controllers(Upsert(owners, p.Ref())) <= 1
  {
    hide Safety.Inv;
    var at := p.At(j);
    if at in s.cluster.paths {
      var owners := s.cluster.paths[at].owners;
      Safety.StoredIsLogged(s, at);
      if ControllerOf(owners).Some? {
        Safety.UnambiguousPoliciesNeverConflict(s, p.key, Bearer(p.uid), p.peers[j]);
        assert OwnerOf(p.key, Bearer(p.uid)) == p.Ref();
      }
      UpsertAddsNoController(owners, p.Ref());
    }
  }

  /** Some policy version with this uid; ownership looks at nothing else of it. */
  function Bearer(uid: nat): Policy {
    Policy(uid, 0, 0, false, {}, PolicySpec(Selectors.LabelSelector(map[], []), None), map[])
  }

  /** Progress without assuming anything about ownership: from any reachable state with unambiguous
      names and no foreign paths in the way, two runs in which nothing fails take the policy to Active. */
  lemma CollisionFreeRunsReachActive(es: seq<Protocol.Event>, p: Plans.Plan, world: World)
    requires Protocol.Behaviour(Protocol.Init, es)
    requires var s := Protocol.After(Protocol.Init, es);
             && Retries.Matches(s.cluster, p) && p.AllReady() && Unambiguous(p.key.name)
             && (forall x <- s.issued :: Unambiguous(x.1.name))
             && NothingForeign(s.cluster, p) && NamesFit(s.cluster, p)
             && Retries.Preference(s.cluster, p).Some?
             && Retries.Steady(world, p, Retries.Preference(s.cluster, p))
    requires Retries.Clean(world) && Retries.CleanPeers(world)
    ensures var c := Protocol.After(Protocol.Init, es).cluster;
            var (d, o) := Retries.Twice(c, p.key, world);
            && o == Done
            && p.key in d.policies && ACTIVE in d.policies[p.key].conditions
            && d.policies[p.key].conditions[ACTIVE]
               == Condition(true, REASON, |c.peers|, c.policies[p.key].generation)
  {
    var s := Protocol.After(Protocol.Init, es);
    Safety.InitHolds();
    Safety.BehaviourKeeps(Protocol.Init, es);
    UnambiguousIsAcceptable(s, p);
    Retries.TwoRunsReachActive(s.cluster, p, world);
  }

  /** One run started and left alone, as steps of the protocol. */
  lemma OneRun(s: Protocol.State, key: Key, world: World) returns (es: seq<Protocol.Event>)
    requires Safety.Inv(s)
    ensures Protocol.Behaviour(s, es) && Safety.Inv(Protocol.After(s, es))
    ensures Protocol.After(s, es).cluster == Reconcile(s.cluster, key, world).0
  {
    hide *;
    Protocol.BeginStep(s, key);
    var t := Protocol.Apply(s, Protocol.Begin(key));
    StartedRun(s, key, t);
    var rest := Alone.RunAlone(t, |s.runs|, key, world);
    var (c, o) := Reconcile(t.cluster, key, world);
    LeadsTo(t, rest, |s.runs|, key, c, o);
    Protocol.Cons(s, Protocol.Begin(key), rest);
    es := [Protocol.Begin(key)] + rest;
    Safety.BehaviourKeeps(s, es);
  }

  lemma StartedRun(s: Protocol.State, key: Key, t: Protocol.State)
    requires Safety.Inv(s) && t == s.(runs := s.runs + [Protocol.Run(key, Reading)])
    ensures t.cluster == s.cluster && Safety.CurrentIsLogged(t) && Protocol.At(t, |s.runs|, key, Reading)
  {
  }

  lemma LeadsTo(s: Protocol.State, es: seq<Protocol.Event>, i: nat, key: Key, c: Cluster, o: Outcome)
    requires Alone.Leads(s, es, i, key, c, o)
    ensures Protocol.Behaviour(s, es) && Protocol.After(s, es).cluster == c
  {
  }

  /** Active is reached in the protocol itself: every such reachable state can go on to one in which the
      policy is Active for its current generation. */
  lemma ActiveIsReached(es: seq<Protocol.Event>, p: Plans.Plan, world: World) returns (fs: seq<Protocol.Event>)
    requires Protocol.Behaviour(Protocol.Init, es)
    requires var s := Protocol.After(Protocol.Init, es);
             && Retries.Matches(s.cluster, p) && Retries.Fine(s.cluster, p, world) && p.AllReady()
    ensures Protocol.Behaviour(Protocol.Init, es + fs)
    ensures var c := Protocol.After(Protocol.Init, es).cluster;
            var d := Protocol.After(Protocol.Init, es + fs).cluster;
            && p.key in d.policies && ACTIVE in d.policies[p.key].conditions
            && d.policies[p.key].generation == c.policies[p.key].generation
            && d.policies[p.key].conditions[ACTIVE]
               == Condition(true, REASON, |c.peers|, c.policies[p.key].generation)
  {
    var s := Protocol.After(Protocol.Init, es);
    Safety.InitHolds();
    Safety.BehaviourKeeps(Protocol.Init, es);
    Retries.TwoRunsReachActive(s.cluster, p, world);
    hide Safety.Inv; hide Protocol.Behaviour; hide Protocol.After; hide Reconcile;
    hide Retries.Fine; hide Retries.Matches;
    var one := OneRun(s, p.key, world);
    var t := Protocol.After(s, one);
    var two := OneRun(t, p.key, world);
    Protocol.BehaviourConcat(s, one, two);
    Protocol.BehaviourConcat(Protocol.Init, es, one + two);
    fs := one + two;
  }

  /** A world in which everything goes well and the control service always gives the same answer. */
  function Well(a: Answer): World {
    World((j: nat, x: string, y: string) => a, false, Sound, false, (j: nat) => false, (j: nat) => Sound, Sound)
  }

  /** A path whose peer is gone, from the very start: a policy, a peer and two runs, and the peer is removed.
      The policy is Active and owns a path that is no peer's. */
  lemma RemovedPeerLeavesPath(key: Key, spec: PolicySpec, peer: Peer, a: Answer)
    returns (es: seq<Protocol.Event>, t: Protocol.State)
    requires spec.preference.Some? && a.Ready? && |PathKey(key, peer).name| <= MAX_NAME
    ensures Protocol.Behaviour(Protocol.Init, es) && Protocol.After(Protocol.Init, es) == t
    ensures t.cluster.peers == [] && key in t.cluster.policies
    ensures var p := Plans.Plan(key, t.cluster.policies[key].uid, [], []);
            && Retries.Matches(t.cluster, p)
            && Retries.Owned(t.cluster, p, PathKey(key, peer)) && !Plans.IsTarget(p, PathKey(key, peer))
  {
    hide Protocol.Behaviour; hide Protocol.After; hide Safety.Inv; hide Finalizers.Leads;
    es, t := Finalizers.PolicyAndPeer(key, spec, peer);
    Finalizers.LeadsIsBehaviour(Protocol.Init, es, Finalizers.STRICT, t);
    Safety.InitHolds();
    Safety.BehaviourKeeps(Protocol.Init, es);
    var p := Plans.Plan(key, t.cluster.policies[key].uid, [peer], [a]);
    var c := t.cluster;
    var one := OneRun(t, key, Well(a));
    var t1 := Protocol.After(t, one);
    var two := OneRun(t1, key, Well(a));
    var t2 := Protocol.After(t1, two);
    Protocol.BehaviourConcat(t, one, two);
    Protocol.BehaviourConcat(Protocol.Init, es, one + two);
    TwoRunsServe(c, p, a);
    Removal(t2);
    Protocol.BehaviourConcat(Protocol.Init, es + (one + two), [Protocol.RemovePeer(0)]);
    es, t := es + (one + two) + [Protocol.RemovePeer(0)], Protocol.Apply(t2, Protocol.RemovePeer(0));
  }

  lemma Removal(s: Protocol.State)
    requires |s.cluster.peers| == 1
    ensures Protocol.Enabled(s, Protocol.RemovePeer(0)) && Protocol.Behaviour(s, [Protocol.RemovePeer(0)])
    ensures var t := Protocol.Apply(s, Protocol.RemovePeer(0));
            && Protocol.After(s, [Protocol.RemovePeer(0)]) == t
            && t.cluster == s.cluster.(peers := [])
  {
  }

  /** Two runs over a fresh policy and one ready peer. */
  lemma TwoRunsServe(c: Cluster, p: Plans.Plan, a: Answer)
    requires p.peers == c.peers && |c.peers| == 1 && p.answers == [a] && a.Ready? && c.paths == map[]
    requires Retries.Matches(c, p) && Retries.Preference(c, p).Some? && |p.At(0).name| <= MAX_NAME
    ensures var d := Retries.Twice(c, p.key, Well(a)).0;
            && d.peers == c.peers && p.key in d.policies && !d.policies[p.key].deleting
            && d.policies[p.key].uid == p.uid
            && Retries.Owned(d, p, p.At(0))
  {
    var m := Plans.Contents(c.paths);
    assert m == map[];
    assert Controllers([p.Ref()]) == 1;
    assert Retries.Fine(c, p, Well(a));
    Retries.StartIsEvolved(c, p);
    Retries.TwoRunsSettle(c, c, p, Well(a));
    Plans.LastWriterIsLast(p, p.At(0), 1);
    Plans.DesiredAt(m, p, 1, p.At(0));
    hide Reconcile;
    var d := Retries.Twice(c, p.key, Well(a)).0;
    assert p.At(0) in Plans.Contents(d.paths);
  }
}
