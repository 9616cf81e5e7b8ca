/** The run function is what the protocol does when nobody interferes: for every cluster, policy and
    world there are steps of one run, with fresh reads, that end in exactly its cluster and outcome. */
module Alone {
  import opened Options
  import opened Kube
  import opened Reconciling
  import opened Protocol
  import opened Safety

  /** Run `i` alone took `s` to the cluster `c` and the outcome `o`. */
  predicate Leads(s: State, es: seq<Event>, i: nat, key: Key, c: Cluster, o: Outcome) {
    && Behaviour(s, es)
    && (forall e <- es :: IsRunStep(e) && e.run == i)
    && After(s, es).cluster == c
    && At(After(s, es), i, key, Finished(o))
  }

  lemma RecordLogs(s: State, c: Cluster)
    requires CurrentIsLogged(s) && c.peers == s.cluster.peers
    ensures CurrentIsLogged(Record(s, c))
  {
  }

  lemma SendKeepsPeers(c: Cluster, effect: Option<Cluster>, fault: Fault)
    requires effect.Some? ==> effect.value.peers == c.peers
    ensures Send(c, effect, fault).0.peers == c.peers
  {
  }

  /** One step `e` to the state `t`, then `rest`. */
  lemma Prepend(s: State, e: Event, t: State, rest: seq<Event>, i: nat, key: Key, c: Cluster, o: Outcome)
    requires Enabled(s, e) && Apply(s, e) == t && IsRunStep(e) && e.run == i
    requires Leads(t, rest, i, key, c, o)
    ensures Leads(s, [e] + rest, i, key, c, o)
  {
    hide Enabled; hide Apply; hide Behaviour; hide After;
    Cons(s, e, rest);
  }

  lemma Stay(s: State, i: nat, key: Key, o: Outcome)
    requires At(s, i, key, Finished(o))
    ensures Leads(s, [], i, key, s.cluster, o)
  {
  }

  lemma LoopAlone(s: State, i: nat, key: Key, w: Work, world: World) returns (es: seq<Event>)
    requires CurrentIsLogged(s) && At(s, i, key, LoopHead(w))
    requires w.key == key && |w.got| <= |w.peers|
    ensures var (c, o) := PeerLoop(s.cluster, w, world); Leads(s, es, i, key, c, o)
    decreases |w.peers| - |w.got|, 2
  {
    hide Enabled; hide Apply; hide Behaviour; hide After; hide Leads; hide CurrentIsLogged;
    var (c, o) := PeerLoop(s.cluster, w, world);
    if !w.More() {
      if !w.AllReady() {
        Stay(s, i, key, Requeue);
        es := [];
      } else {
        ReportStep(s, i, key, w, world.status);
        var t := Apply(s, Report(i, world.status));
        Stay(t, i, key, o);
        Prepend(s, Report(i, world.status), t, [], i, key, c, o);
        es := [Report(i, world.status)];
        assert [Report(i, world.status)] + [] == es;
      }
    } else if w.snap.spec.preference.None? {
      Stay(s, i, key, Failed(NilPreference));
      es := [];
    } else {
      var a := AnswerFor(w, world);
      FetchStep(s, i, key, w, a);
      var t := Apply(s, Fetch(i, a));
      assert CurrentIsLogged(t) by { LoggedMoves(s, t); }
      var rest;
      match a {
        case Unreachable =>
          Stay(t, i, key, o);
          rest := [];
        case NotReady =>
          rest := LoopAlone(t, i, key, w.Then(a), world);
        case Ready(_, _) =>
          rest := ProbeAlone(t, i, key, w, a, world);
      }
      Prepend(s, Fetch(i, a), t, rest, i, key, c, o);
      es := [Fetch(i, a)] + rest;
    }
  }

  lemma LoggedMoves(s: State, t: State)
    requires CurrentIsLogged(s) && t == s.(runs := t.runs)
    ensures CurrentIsLogged(t)
  {
  }

  lemma FoundIsLogged(s: State, at: Key)
    requires CurrentIsLogged(s)
    ensures var found := Find(s.cluster.paths, at); found.Some? ==> (at, found.value) in s.pathLog
  {
  }

  lemma ProbeAlone(s: State, i: nat, key: Key, w: Work, a: Answer, world: World) returns (es: seq<Event>)
    requires CurrentIsLogged(s) && At(s, i, key, Probing(w, a))
    requires w.key == key && w.More() && a.Ready?
    ensures var (c', e) := CreateOrUpdate(s.cluster, w, a, world);
            var (c, o) := if e.Some? then (c', Failed(e.value)) else PeerLoop(c', w.Then(a), world);
            Leads(s, es, i, key, c, o)
    decreases |w.peers| - |w.got|, 1
  {
    hide Enabled; hide Apply; hide Behaviour; hide After; hide Leads; hide CurrentIsLogged; hide PeerLoop;
    var at := PathKey(key, w.Peer());
    var (c', err) := CreateOrUpdate(s.cluster, w, a, world);
    var (c, o) := if err.Some? then (c', Failed(err.value)) else PeerLoop(c', w.Then(a), world);
    if world.probeFails(|w.got|) {
      AbortStep(s, i, key, Probing(w, a));
      var t := Apply(s, Abort(i));
      Stay(t, i, key, o);
      Prepend(s, Abort(i), t, [], i, key, c, o);
      es := [Abort(i)];
      assert [Abort(i)] + [] == es;
    } else {
      var found := Find(s.cluster.paths, at);
      FoundIsLogged(s, at);
      ProbeStep(s, i, key, w, a, found);
      var t := Apply(s, Probe(i, found));
      LoggedMoves(s, t);
      var obj := Mutated(found, OwnerOf(key, w.snap), Target(key, w.Peer(), a));
      var rest;
      if obj.None? {
        Stay(t, i, key, o);
        rest := [];
      } else if found == obj {
        rest := LoopAlone(t, i, key, w.Then(a), world);
      } else {
        rest := WriteAlone(t, i, key, w, a, found, obj.value, world);
      }
      Prepend(s, Probe(i, found), t, rest, i, key, c, o);
      es := [Probe(i, found)] + rest;
    }
  }

  lemma WriteAlone(s: State, i: nat, key: Key, w: Work, a: Answer, base: Option<ComputedPath>, obj: ComputedPath,
                   world: World) returns (es: seq<Event>)
    requires CurrentIsLogged(s) && At(s, i, key, Writing(w, a, base, obj))
    requires w.key == key && w.More() && a.Ready?
    ensures var (c', ok) := Send(s.cluster, StorePath(s.cluster, PathKey(key, w.Peer()), base, obj),
                                 world.write(|w.got|));
            var (c, o) := if ok then PeerLoop(c', w.Then(a), world) else (c', Failed(ApiError));
            Leads(s, es, i, key, c, o)
    decreases |w.peers| - |w.got|, 0
  {
    hide Enabled; hide Apply; hide Behaviour; hide After; hide Leads; hide CurrentIsLogged; hide PeerLoop;
    var effect := StorePath(s.cluster, PathKey(key, w.Peer()), base, obj);
    var fault := world.write(|w.got|);
    var (c', ok) := Send(s.cluster, effect, fault);
    WriteStep(s, i, key, w, a, base, obj, fault);
    var t := Apply(s, Write(i, fault));
    SendKeepsPeers(s.cluster, effect, fault);
    RecordLogs(s, c');
    LoggedMoves(Record(s, c'), t);
    var rest;
    if ok {
      rest := LoopAlone(t, i, key, w.Then(a), world);
      var (c, o) := PeerLoop(c', w.Then(a), world);
      Prepend(s, Write(i, fault), t, rest, i, key, c, o);
    } else {
      Stay(t, i, key, Failed(ApiError));
      rest := [];
      Prepend(s, Write(i, fault), t, rest, i, key, c', Failed(ApiError));
    }
    es := [Write(i, fault)] + rest;
  }

  lemma SnapIsLogged(s: State, key: Key)
    requires CurrentIsLogged(s)
    ensures var seen := Find(s.cluster.policies, key); seen.Some? ==> (key, seen.value) in s.policyLog
    ensures forall p <- s.cluster.peers :: p.name in s.peerNames
  {
  }

  /** Refinement: the run function describes a behaviour of the protocol. */
  lemma RunAlone(s: State, i: nat, key: Key, world: World) returns (es: seq<Event>)
    requires CurrentIsLogged(s) && At(s, i, key, Reading)
    ensures var (c, o) := Reconcile(s.cluster, key, world); Leads(s, es, i, key, c, o)
  {
    hide Enabled; hide Apply; hide Behaviour; hide After; hide Leads; hide CurrentIsLogged; hide PeerLoop;
    var (c, o) := Reconcile(s.cluster, key, world);
    SnapIsLogged(s, key);
    if world.getFails {
      AbortStep(s, i, key, Reading);
      var t := Apply(s, Abort(i));
      Stay(t, i, key, o);
      Prepend(s, Abort(i), t, [], i, key, c, o);
      es := [Abort(i)] + [];
    } else {
      var seen := Find(s.cluster.policies, key);
      GetStep(s, i, key, seen);
      var t := Apply(s, Get(i, seen));
      LoggedMoves(s, t);
      var rest := DecideAlone(t, i, key, seen, world);
      Prepend(s, Get(i, seen), t, rest, i, key, c, o);
      es := [Get(i, seen)] + rest;
    }
  }

  lemma DecideAlone(s: State, i: nat, key: Key, seen: Option<Policy>, world: World) returns (es: seq<Event>)
    requires CurrentIsLogged(s) && seen == Find(s.cluster.policies, key) && At(s, i, key, AfterGet(seen))
    requires !world.getFails
    ensures var (c, o) := Reconcile(s.cluster, key, world); Leads(s, es, i, key, c, o)
  {
    hide Enabled; hide Apply; hide Behaviour; hide After; hide Leads; hide CurrentIsLogged; hide PeerLoop;
    var (c, o) := Reconcile(s.cluster, key, world);
    SnapIsLogged(s, key);
    match AfterGet(seen) {
      case Finished(_) =>
        Stay(s, i, key, o);
        es := [];
      case Updating(snap, next) =>
        PutStep(s, i, key, snap, next, world.update);
        var t := Apply(s, Put(i, world.update));
        Stay(t, i, key, o);
        Prepend(s, Put(i, world.update), t, [], i, key, c, o);
        es := [Put(i, world.update)] + [];
      case Listing(snap) =>
        if world.listFails {
          AbortStep(s, i, key, Listing(snap));
          var t := Apply(s, Abort(i));
          Stay(t, i, key, o);
          Prepend(s, Abort(i), t, [], i, key, c, o);
          es := [Abort(i)] + [];
        } else {
          ListStep(s, i, key, snap, s.cluster.peers);
          var t := Apply(s, List(i, s.cluster.peers));
          LoggedMoves(s, t);
          var rest := LoopAlone(t, i, key, Work(key, snap, s.cluster.peers, []), world);
          Prepend(s, List(i, s.cluster.peers), t, rest, i, key, c, o);
          es := [List(i, s.cluster.peers)] + rest;
        }
    }
  }
}
