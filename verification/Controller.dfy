/** The API server and the reconciler in the form the program gives them: objects whose
    methods change state, with the peer loop as a loop. */
module Controller {
  import opened Options
  import opened Naming
  import opened Kube
  import opened Reconciling

  /** The server takes a computed path with one controller at most: a new one where there is none, if its name
      is not too long, or the next version of the one that was read. */
  predicate Stores(paths: map<Key, ComputedPath>, k: Key, base: Option<ComputedPath>, v: ComputedPath) {
    && Controllers(v.owners) <= 1
    && (base.None? <==> k !in paths)
    && (base.None? ==> |k.name| <= MAX_NAME)
    && (base.Some? && k in paths ==> paths[k].rv == base.value.rv)
  }

  class ApiServer {
    var policies: map<Key, Policy>
    var peers: seq<Peer>
    var paths: map<Key, ComputedPath>
    var nextRv: nat

    ghost function View(): Cluster
      reads this
    {
      Cluster(policies, peers, paths, nextRv)
    }

    constructor ()
      ensures View() == Cluster(map[], [], map[], 0)
    {
      policies, peers, paths, nextRv := map[], [], map[], 0;
    }

    method Adopt(c: Cluster)
      modifies this
      ensures View() == c
    {
      policies, peers, paths, nextRv := c.policies, c.peers, c.paths, c.nextRv;
    }

    /** One write request, under the fault it meets. */
    method Request(effect: Option<Cluster>, fault: Fault) returns (ok: bool)
      modifies this
      ensures (View(), ok) == Send(old(View()), effect, fault)
    {
      ok := fault.Sound? && effect.Some?;
      if !fault.Refused? && effect.Some? {
        Adopt(effect.value);
      }
    }

    method Snapshot() returns (c: Cluster)
      ensures c == View()
    {
      c := Cluster(policies, peers, paths, nextRv);
    }

    method UpdatePolicy(k: Key, p: Policy, fault: Fault) returns (ok: bool)
      modifies this
      ensures (View(), ok) == Send(old(View()), Kube.UpdatePolicy(old(View()), k, p), fault)
      ensures paths == old(paths) && peers == old(peers)
      ensures ok <==> fault.Sound? && k in old(policies) && old(policies)[k].rv == p.rv
      ensures fault.Refused? || k !in old(policies) || old(policies)[k].rv != p.rv ==> policies == old(policies)
      ensures !fault.Refused? && k in old(policies) && old(policies)[k].rv == p.rv ==>
                var was := old(policies)[k];
                var gone := p.deleting && p.finalizers == {} && p.(conditions := was.conditions) != was;
                policies == if gone then old(policies) - {k}
                            else old(policies)[k := p.(conditions := was.conditions, rv := policies[k].rv)]
    {
      var c := Snapshot();
      ok := Request(Kube.UpdatePolicy(c, k, p), fault);
    }

    method UpdateStatus(k: Key, p: Policy, fault: Fault) returns (ok: bool)
      modifies this
      ensures (View(), ok) == Send(old(View()), Kube.UpdateStatus(old(View()), k, p), fault)
      ensures paths == old(paths) && peers == old(peers)
      ensures ok <==> fault.Sound? && k in old(policies) && old(policies)[k].rv == p.rv
      ensures fault.Refused? || k !in old(policies) || old(policies)[k].rv != p.rv ==> policies == old(policies)
      ensures !fault.Refused? && k in old(policies) && old(policies)[k].rv == p.rv ==>
                policies == old(policies)[k := old(policies)[k].(conditions := p.conditions, rv := policies[k].rv)]
    {
      var c := Snapshot();
      ok := Request(Kube.UpdateStatus(c, k, p), fault);
    }

    method StorePath(k: Key, base: Option<ComputedPath>, v: ComputedPath, fault: Fault) returns (ok: bool)
      modifies this
      ensures (View(), ok) == Send(old(View()), Kube.StorePath(old(View()), k, base, v), fault)
      ensures policies == old(policies) && peers == old(peers)
      ensures ok <==> fault.Sound? && Stores(old(paths), k, base, v)
      ensures paths == if !fault.Refused? && Stores(old(paths), k, base, v)
                       then old(paths)[k := v.(rv := old(nextRv))] else old(paths)
      ensures nextRv == old(nextRv) + if !fault.Refused? && Stores(old(paths), k, base, v) then 1 else 0
    {
      var c := Snapshot();
      ok := Request(Kube.StorePath(c, k, base, v), fault);
    }
  }

  class Reconciler {
    const server: ApiServer

    constructor (server: ApiServer)
      ensures this.server == server
    {
      this.server := server;
    }

    method CreateOrUpdate(w: Work, a: Answer, world: World) returns (error: Option<Error>)
      requires w.More() && a.Ready?
      modifies server
      ensures (server.View(), error) == Reconciling.CreateOrUpdate(old(server.View()), w, a, world)
      ensures server.policies == old(server.policies) && server.peers == old(server.peers)
      ensures error.None? ==>
                var at := Key(w.key.ns, w.key.name + "-to-" + w.peers[|w.got|].name);
                && at in server.paths && server.paths == old(server.paths)[at := server.paths[at]]
                && server.paths[at].spec.policyRef == w.key.name
                && server.paths[at].spec.destinationCidr == w.peers[|w.got|].podCIDR
                && server.paths[at].spec.nextHopIP == a.nextHopIP
                && server.paths[at].spec.hopFields == a.hopFields
    {
      if world.probeFails(|w.got|) {
        return Some(ApiError);
      }
      var k := PathKey(w.key, w.Peer());
      var found := Find(server.paths, k);
      var obj := Mutated(found, OwnerOf(w.key, w.snap), Target(w.key, w.Peer(), a));
      if obj.None? {
        return Some(AlreadyOwned);
      }
      if found == obj {
        return None;
      }
      var ok := server.StorePath(k, found, obj.value, world.write(|w.got|));
      error := if ok then None else Some(ApiError);
    }

    /** The program's Reconcile: it meets the run function in every cluster and every world. */
    method Reconcile(key: Key, world: World) returns (outcome: Outcome)
      modifies server
      ensures (server.View(), outcome) == Reconciling.Reconcile(old(server.View()), key, world)
    {
      if world.getFails {
        return Failed(ApiError);
      }
      if key !in server.policies {
        return Done;
      }
      var policy := server.policies[key];
      if policy.deleting {
        if FINALIZER in policy.finalizers {
          var next := policy.(finalizers := policy.finalizers - {FINALIZER});
          var ok := server.UpdatePolicy(key, next, world.update);
          return if ok then Done else Failed(ApiError);
        }
        return Done;
      }
      if FINALIZER !in policy.finalizers {
        var next := policy.(finalizers := policy.finalizers + {FINALIZER});
        var ok := server.UpdatePolicy(key, next, world.update);
        return if ok then Done else Failed(ApiError);
      }
      if world.listFails {
        return Failed(ApiError);
      }
      outcome := ComputePaths(key, policy, world);
    }

    method ComputePaths(key: Key, policy: Policy, world: World) returns (outcome: Outcome)
      modifies server
      ensures (server.View(), outcome)
           == PeerLoop(old(server.View()), Work(key, policy, old(server.peers), []), world)
    {
      var peers := server.peers;
      var allPathsReady := true;
      var w := Work(key, policy, peers, []);
      ghost var start := w;
      while |w.got| < |peers|
        invariant w.key == key && w.snap == policy && w.peers == peers
        invariant |w.got| <= |peers|
        invariant allPathsReady == w.AllReady()
        invariant PeerLoop(server.View(), w, world) == PeerLoop(old(server.View()), start, world)
        decreases |peers| - |w.got|
      {
        if policy.spec.preference.None? {
          return Failed(NilPreference);
        }
        var a := world.fetch(|w.got|, peers[|w.got|].remoteAS, policy.spec.preference.value);
        if a.Unreachable? {
          return Failed(FetchError);
        }
        if a.NotReady? {
          allPathsReady := false;
        } else {
          var error := CreateOrUpdate(w, a, world);
          if error.Some? {
            return Failed(error.value);
          }
        }
        w := w.Then(a);
      }
      if !allPathsReady {
        return Requeue;
      }
      var ok := server.UpdateStatus(key, Activated(w), world.status);
      outcome := if ok then Done else Failed(ApiError);
    }
  }
}
