/** The converse of Alone: whatever a run does in the protocol while nobody interferes, wherever it
    breaks off, is what the run function does in some world. So what Retries proves about histories of
    whole runs holds of every such history of protocol steps. */
module Serial {
  import opened Options
  import opened Kube
  import opened Reconciling
  import opened Protocol
  import Plans
  import Retries

  // ---------------------------------------------------------------------------
  // Undisturbed runs
  // ---------------------------------------------------------------------------

  /** Reads return what is stored, and the control service answers as in `base` or not at all. */
  predicate Fresh(s: State, r: Run, e: Event, base: World)
    requires RunStepEnabled(s, r, e)
  {
    match r.phase
    case Reading => e.Get? ==> e.seen == Find(s.cluster.policies, r.key)
    case Listing(_) => e.List? ==> e.peers == s.cluster.peers
    case Fetching(w) =>
      e.Fetch? ==> e.answer.Unreachable? || (w.snap.spec.preference.Some? && e.answer == AnswerFor(w, base))
    case Probing(w, _) => e.Probe? ==> e.found == Find(s.cluster.paths, PathKey(r.key, w.Peer()))
    case _ => true
  }

  /** Run `i` alone goes from `s` to `t`, where it has finished. */
  predicate Undisturbed(s: State, es: seq<Event>, i: nat, base: World, t: State)
    decreases |es|
  {
    if es == [] then s == t && i < |s.runs| && s.runs[i].phase.Finished?
    else StepsAlone(s, es[0], i, base) && Undisturbed(Apply(s, es[0]), es[1..], i, base, t)
  }

  predicate StepsAlone(s: State, e: Event, i: nat, base: World) {
    IsRunStep(e) && e.run == i && Enabled(s, e) && Fresh(s, s.runs[i], e, base)
  }

  /** Run `i` ended as the run function did; an abort is a failed call of some kind. */
  predicate Ends(t: State, i: nat, key: Key, result: (Cluster, Outcome)) {
    && t.cluster == result.0
    && i < |t.runs| && t.runs[i].key == key && t.runs[i].phase.Finished?
    && var o := t.runs[i].phase.outcome;
       o == result.1 || (o.Failed? && result.1.Failed?)
  }

  // ---------------------------------------------------------------------------
  // Worlds
  // ---------------------------------------------------------------------------

  /** The control service answers as in `base`, or not at all. */
  ghost predicate Answers(world: World, base: World) {
    forall j: nat, x: string, y: string ::
      world.fetch(j, x, y) == base.fetch(j, x, y) || world.fetch(j, x, y).Unreachable?
  }

  ghost predicate AgreeFrom(a: World, b: World, n: nat) {
    && a.status == b.status
    && (forall j: nat | j >= n :: a.probeFails(j) == b.probeFails(j) && a.write(j) == b.write(j))
    && (forall j: nat, x: string, y: string | j >= n :: a.fetch(j, x, y) == b.fetch(j, x, y))
  }

  /** What happened at peer `j`, put before what happens after it. */
  function Patched(rest: World, base: World, j: nat, lost: bool, probeFails: bool, write: Fault): (r: World)
    ensures AgreeFrom(r, rest, j + 1)
    ensures Answers(rest, base) ==> Answers(r, base)
    ensures r.probeFails(j) == probeFails && r.write(j) == write
    ensures forall x: string, y: string :: r.fetch(j, x, y) == if lost then Unreachable else base.fetch(j, x, y)
  {
    rest.(fetch := (n: nat, x: string, y: string) =>
            if n != j then rest.fetch(n, x, y) else if lost then Unreachable else base.fetch(n, x, y),
          probeFails := (n: nat) => if n == j then probeFails else rest.probeFails(n),
          write := (n: nat) => if n == j then write else rest.write(n))
  }

  /** The loop asks the world only about peers it has not dealt with. */
  lemma {:induction false} LoopAgrees(c: Cluster, w: Work, a: World, b: World)
    requires |w.got| <= |w.peers| && AgreeFrom(a, b, |w.got|)
    ensures PeerLoop(c, w, a) == PeerLoop(c, w, b)
    decreases |w.peers| - |w.got|
  {
    if w.More() && w.snap.spec.preference.Some? {
      var answer := AnswerFor(w, a);
      assert answer == AnswerFor(w, b);
      if answer.NotReady? {
        LoopAgrees(c, w.Then(answer), a, b);
      } else if answer.Ready? {
        assert CreateOrUpdate(c, w, answer, a) == CreateOrUpdate(c, w, answer, b);
        LoopAgrees(CreateOrUpdate(c, w, answer, a).0, w.Then(answer), a, b);
      }
    }
  }

  // ---------------------------------------------------------------------------
  // The loop
  // ---------------------------------------------------------------------------

  lemma NoStepAfterFinished(s: State, es: seq<Event>, i: nat, base: World, t: State)
    requires i < |s.runs| && s.runs[i].phase.Finished? && Undisturbed(s, es, i, base, t)
    ensures s == t
  {
    hide Apply; hide Fresh;
  }

  lemma SomeStep(s: State, es: seq<Event>, i: nat, base: World, t: State)
    requires i < |s.runs| && !s.runs[i].phase.Finished? && Undisturbed(s, es, i, base, t)
    ensures es != [] && StepsAlone(s, es[0], i, base) && RunStepEnabled(s, s.runs[i], es[0])
    ensures Undisturbed(Apply(s, es[0]), es[1..], i, base, t)
  {
    hide Apply; hide Fresh; hide RunStepEnabled;
  }

  lemma AbortEnds(s: State, es: seq<Event>, i: nat, key: Key, phase: Phase, base: World, t: State)
    requires At(s, i, key, phase) && !phase.Finished? && Undisturbed(s, es, i, base, t)
    requires es != [] && es[0].Abort?
    ensures t.cluster == s.cluster && At(t, i, key, Finished(Failed(ApiError)))
  {
    SomeStep(s, es, i, base, t);
    AbortStep(s, i, key, phase);
    hide Enabled; hide Apply;
    NoStepAfterFinished(Apply(s, es[0]), es[1..], i, base, t);
  }

  lemma LoopIsRun(s: State, es: seq<Event>, i: nat, key: Key, w: Work, base: World, t: State) returns (world: World)
    requires At(s, i, key, LoopHead(w)) && w.key == key && |w.got| <= |w.peers|
    requires Undisturbed(s, es, i, base, t)
    ensures Ends(t, i, key, PeerLoop(s.cluster, w, world)) && Answers(world, base)
    decreases |es|
  {
    hide Enabled; hide Apply; hide Undisturbed; hide RunStepEnabled;
    var j := |w.got|;
    if LoopHead(w).Finished? {
      NoStepAfterFinished(s, es, i, base, t);
      world := base;
    } else if LoopHead(w).Reporting? {
      world := ReportIsRun(s, es, i, key, w, base, t);
    } else {
      SomeStep(s, es, i, base, t);
      FetchOrAbort(s, es[0], i, key, w, base);
      if es[0].Abort? {
        AbortEnds(s, es, i, key, Fetching(w), base, t);
        world := Patched(base, base, j, true, false, Sound);
      } else {
        var a := es[0].answer;
        var s' := Apply(s, es[0]);
        FetchStep(s, i, key, w, a);
        match a {
          case Unreachable =>
            NoStepAfterFinished(s', es[1..], i, base, t);
            world := Patched(base, base, j, true, false, Sound);
          case NotReady =>
            var rest := LoopIsRun(s', es[1..], i, key, w.Then(a), base, t);
            world := Patched(rest, base, j, false, false, Sound);
            LoopAgrees(s.cluster, w.Then(a), world, rest);
          case Ready(_, _) =>
            world := ProbeIsRun(s', es[1..], i, key, w, a, base, t);
        }
      }
    }
  }

  lemma FetchOrAbort(s: State, e: Event, i: nat, key: Key, w: Work, base: World)
    requires At(s, i, key, Fetching(w)) && w.More() && StepsAlone(s, e, i, base)
    ensures e == Abort(i) || (e == Fetch(i, e.answer)
              && (e.answer.Unreachable? || (w.snap.spec.preference.Some? && e.answer == AnswerFor(w, base))))
  {
  }

  lemma ReportIsRun(s: State, es: seq<Event>, i: nat, key: Key, w: Work, base: World, t: State) returns (world: World)
    requires At(s, i, key, Reporting(w)) && LoopHead(w) == Reporting(w) && w.key == key && |w.got| <= |w.peers|
    requires Undisturbed(s, es, i, base, t)
    ensures Ends(t, i, key, PeerLoop(s.cluster, w, world)) && Answers(world, base)
  {
    SomeStep(s, es, i, base, t);
    var e := es[0];
    assert e == Abort(i) || e == Report(i, e.fault);
    hide Enabled; hide Apply; hide Undisturbed;
    if e.Abort? {
      AbortEnds(s, es, i, key, Reporting(w), base, t);
      world := base.(status := Refused);
    } else {
      ReportStep(s, i, key, w, e.fault);
      NoStepAfterFinished(Apply(s, e), es[1..], i, base, t);
      world := base.(status := e.fault);
    }
  }

  /** How the loop goes on from a CreateOrUpdate. */
  function GoOn(result: (Cluster, Option<Error>), w: Work, a: Answer, world: World): (Cluster, Outcome)
    requires w.More()
  {
    if result.1.Some? then (result.0, Failed(result.1.value)) else PeerLoop(result.0, w.Then(a), world)
  }

  /** The world answers about the current peer as `base` does. */
  ghost predicate AnswersNow(world: World, base: World, w: Work) {
    forall x: string, y: string :: world.fetch(|w.got|, x, y) == base.fetch(|w.got|, x, y)
  }

  lemma ProbeIsRun(s: State, es: seq<Event>, i: nat, key: Key, w: Work, a: Answer, base: World, t: State)
    returns (world: World)
    requires At(s, i, key, Probing(w, a)) && w.key == key && w.More() && a.Ready?
    requires Undisturbed(s, es, i, base, t)
    ensures Ends(t, i, key, GoOn(CreateOrUpdate(s.cluster, w, a, world), w, a, world))
    ensures Answers(world, base) && AnswersNow(world, base, w)
    decreases |es|
  {
    hide Enabled; hide Apply; hide Undisturbed; hide PeerLoop;
    var j := |w.got|;
    SomeStep(s, es, i, base, t);
    ProbeOrAbort(s, es[0], i, key, w, a, base);
    if es[0].Abort? {
      AbortEnds(s, es, i, key, Probing(w, a), base, t);
      world := Patched(base, base, j, false, true, Sound);
    } else {
      var found := Find(s.cluster.paths, PathKey(key, w.Peer()));
      var s' := Apply(s, es[0]);
      ProbeStep(s, i, key, w, a, found);
      var obj := Mutated(found, OwnerOf(key, w.snap), Target(key, w.Peer(), a));
      if obj.None? {
        NoStepAfterFinished(s', es[1..], i, base, t);
        world := Patched(base, base, j, false, false, Sound);
      } else if found == obj {
        var rest := LoopIsRun(s', es[1..], i, key, w.Then(a), base, t);
        world := Patched(rest, base, j, false, false, Sound);
        LoopAgrees(s.cluster, w.Then(a), world, rest);
      } else {
        world := WriteIsRun(s', es[1..], i, key, w, a, found, obj.value, base, t);
      }
    }
  }

  lemma ProbeOrAbort(s: State, e: Event, i: nat, key: Key, w: Work, a: Answer, base: World)
    requires At(s, i, key, Probing(w, a)) && w.More() && StepsAlone(s, e, i, base)
    ensures e == Abort(i) || e == Probe(i, Find(s.cluster.paths, PathKey(key, w.Peer())))
    ensures e.Probe? ==> e.found.Some? ==> (PathKey(key, w.Peer()), e.found.value) in s.pathLog
  {
  }

  lemma WriteIsRun(s: State, es: seq<Event>, i: nat, key: Key, w: Work, a: Answer, found: Option<ComputedPath>,
                   obj: ComputedPath, base: World, t: State) returns (world: World)
    requires At(s, i, key, Writing(w, a, found, obj)) && w.key == key && w.More() && a.Ready?
    requires Undisturbed(s, es, i, base, t)
    ensures !world.probeFails(|w.got|)
    ensures var (c, ok) := Send(s.cluster, StorePath(s.cluster, PathKey(key, w.Peer()), found, obj),
                                world.write(|w.got|));
            Ends(t, i, key, GoOn((c, if ok then None else Some(ApiError)), w, a, world))
    ensures Answers(world, base) && AnswersNow(world, base, w)
    decreases |es|
  {
    SomeStep(s, es, i, base, t);
    var e := es[0];
    assert e == Abort(i) || e == Write(i, e.fault);
    hide Enabled; hide Apply; hide Undisturbed; hide PeerLoop; hide StorePath;
    var j := |w.got|;
    if e.Abort? {
      AbortEnds(s, es, i, key, Writing(w, a, found, obj), base, t);
      world := Patched(base, base, j, false, false, Refused);
    } else {
      WriteStep(s, i, key, w, a, found, obj, e.fault);
      var s' := Apply(s, e);
      var effect := StorePath(s.cluster, PathKey(key, w.Peer()), found, obj);
      if Send(s.cluster, effect, e.fault).1 {
        var rest := LoopIsRun(s', es[1..], i, key, w.Then(a), base, t);
        world := Patched(rest, base, j, false, false, e.fault);
        LoopAgrees(s'.cluster, w.Then(a), world, rest);
      } else {
        NoStepAfterFinished(s', es[1..], i, base, t);
        world := Patched(base, base, j, false, false, e.fault);
      }
    }
  }

  // ---------------------------------------------------------------------------
  // Whole runs
  // ---------------------------------------------------------------------------

  /** The run function accounts for every undisturbed run of the protocol. */
  lemma EveryRunIsOne(s: State, es: seq<Event>, i: nat, key: Key, base: World, t: State) returns (world: World)
    requires At(s, i, key, Reading) && Undisturbed(s, es, i, base, t)
    ensures Ends(t, i, key, Reconcile(s.cluster, key, world)) && Answers(world, base)
  {
    SomeStep(s, es, i, base, t);
    var e := es[0];
    var seen := Find(s.cluster.policies, key);
    assert e == Abort(i) || (e == Get(i, seen) && (seen.Some? ==> (key, seen.value) in s.policyLog));
    hide Enabled; hide Apply; hide Undisturbed; hide PeerLoop;
    if e.Abort? {
      AbortEnds(s, es, i, key, Reading, base, t);
      world := base.(getFails := true);
    } else {
      GetStep(s, i, key, seen);
      world := DecidedIsRun(Apply(s, e), es[1..], i, key, seen, base, t);
    }
  }

  lemma DecidedIsRun(s: State, es: seq<Event>, i: nat, key: Key, seen: Option<Policy>, base: World, t: State)
    returns (world: World)
    requires seen == Find(s.cluster.policies, key) && At(s, i, key, AfterGet(seen))
    requires Undisturbed(s, es, i, base, t)
    ensures Ends(t, i, key, Reconcile(s.cluster, key, world)) && Answers(world, base)
  {
    hide Enabled; hide Apply; hide Undisturbed; hide PeerLoop;
    match AfterGet(seen) {
      case Finished(_) =>
        NoStepAfterFinished(s, es, i, base, t);
        world := base.(getFails := false);
      case Updating(snap, next) =>
        var fault := UpdateIsRun(s, es, i, key, snap, next, base, t);
        world := base.(getFails := false, update := fault);
      case Listing(snap) =>
        SomeStep(s, es, i, base, t);
        ListOrAbort(s, es[0], i, key, snap, base);
        if es[0].Abort? {
          AbortEnds(s, es, i, key, Listing(snap), base, t);
          world := base.(getFails := false, listFails := true);
        } else {
          ListStep(s, i, key, snap, s.cluster.peers);
          var w := Work(key, snap, s.cluster.peers, []);
          var rest := LoopIsRun(Apply(s, es[0]), es[1..], i, key, w, base, t);
          world := rest.(getFails := false, listFails := false);
          LoopAgrees(s.cluster, w, world, rest);
        }
    }
  }

  lemma ListOrAbort(s: State, e: Event, i: nat, key: Key, snap: Policy, base: World)
    requires At(s, i, key, Listing(snap)) && StepsAlone(s, e, i, base)
    ensures e == Abort(i) || e == List(i, s.cluster.peers)
    ensures e.List? ==> forall p <- s.cluster.peers :: p.name in s.peerNames
  {
  }

  lemma UpdateIsRun(s: State, es: seq<Event>, i: nat, key: Key, snap: Policy, next: Policy, base: World, t: State)
    returns (fault: Fault)
    requires At(s, i, key, Updating(snap, next)) && Undisturbed(s, es, i, base, t)
    ensures var (c, ok) := Send(s.cluster, UpdatePolicy(s.cluster, key, next), fault);
            Ends(t, i, key, (c, if ok then Done else Failed(ApiError)))
  {
    SomeStep(s, es, i, base, t);
    var e := es[0];
    assert e == Abort(i) || e == Put(i, e.fault);
    hide Enabled; hide Apply; hide Undisturbed; hide UpdatePolicy;
    if e.Abort? {
      AbortEnds(s, es, i, key, Updating(snap, next), base, t);
      fault := Refused;
    } else {
      PutStep(s, i, key, snap, next, e.fault);
      NoStepAfterFinished(Apply(s, e), es[1..], i, base, t);
      fault := e.fault;
    }
  }

  // ---------------------------------------------------------------------------
  // Histories
  // ---------------------------------------------------------------------------

  /** Runs for one policy, one after the other, each started, followed to its end, and undisturbed. */
  predicate History(s: State, runs: seq<seq<Event>>, key: Key, base: World, t: State)
    decreases |runs|
  {
    if runs == [] then s == t
    else
      var s0 := Apply(s, Begin(key));
      Behaviour(s0, runs[0])
      && Undisturbed(s0, runs[0], |s.runs|, base, After(s0, runs[0]))
      && History(After(s0, runs[0]), runs[1..], key, base, t)
  }

  lemma {:induction false} HistoryIsRuns(s: State, runs: seq<seq<Event>>, key: Key, base: World, t: State)
    returns (worlds: seq<World>)
    requires History(s, runs, key, base, t)
    ensures t.cluster == Retries.Runs(s.cluster, key, worlds)
    ensures forall k | 0 <= k < |worlds| :: Answers(worlds[k], base)
    decreases |runs|
  {
    if runs == [] {
      worlds := [];
    } else {
      BeginStep(s, key);
      hide Enabled; hide Apply; hide Undisturbed; hide Behaviour; hide After; hide Reconcile;
      var s0 := Apply(s, Begin(key));
      var world := EveryRunIsOne(s0, runs[0], |s.runs|, key, base, After(s0, runs[0]));
      var rest := HistoryIsRuns(After(s0, runs[0]), runs[1..], key, base, t);
      worlds := [world] + rest;
      assert worlds[1..] == rest;
    }
  }

  /** Retry transparency over protocol steps: runs broken off at any call, with any request refused or
      any reply lost, leave nothing that two full runs, or one if the finalizer is there, do not make
      good: the cluster is then as if they had never been, but for resource versions. */
  lemma BrokenRunsLeaveNoTrace(s: State, runs: seq<seq<Event>>, p: Plans.Plan, base: World, t: State)
    requires Retries.Matches(s.cluster, p) && Retries.Fine(s.cluster, p, base)
    requires History(s, runs, p.key, base, t)
    ensures p.key in t.cluster.policies
    ensures Retries.SameUpToVersions(Retries.Twice(t.cluster, p.key, base).0, Retries.Twice(s.cluster, p.key, base).0)
    ensures FINALIZER in t.cluster.policies[p.key].finalizers ==>
              Retries.SameUpToVersions(Reconcile(t.cluster, p.key, base).0, Retries.Twice(s.cluster, p.key, base).0)
  {
    var worlds := HistoryIsRuns(s, runs, p.key, base, t);
    forall k | 0 <= k < |worlds|
      ensures Retries.Faithful(worlds[k], p, Retries.Preference(s.cluster, p))
    {
      assert Answers(worlds[k], base);
    }
    Retries.RetryTransparent(s.cluster, p, worlds, base);
  }
}
