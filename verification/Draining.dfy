/** Left alone by users, peers and foreign controllers, the cluster comes to rest: a measure of stored
    paths and outstanding calls falls with every step of a run in flight and every collection, however
    stale the reads and whatever fails, and at rest no run is in flight and no orphan is left. */
module Draining {
  import opened Options
  import opened Kube
  import opened Reconciling
  import opened Protocol
  import opened Finalizers
  import opened Safety

  predicate IsDrainStep(e: Event) {
    IsRunStep(e) || e.Collect?
  }

  /** Only drain steps, and no List answers with more than `n` peers. */
  predicate Drain(es: seq<Event>, n: nat) {
    forall e <- es :: IsDrainStep(e) && (e.List? ==> |e.peers| <= n)
  }

  /** The calls a run inside the loop still has to make, and the paths it may still create. */
  function LoopWork(w: Work): nat {
    if |w.got| < |w.peers| then 4 * (|w.peers| - |w.got|) + 1 else 1
  }

  function Outstanding(phase: Phase, n: nat): nat {
    match phase
    case Reading => 4 * n + 3
    case Updating(_, _) => 1
    case Listing(_) => 4 * n + 2
    case Fetching(w) => LoopWork(w)
    case Probing(w, _) => if w.More() then LoopWork(w) - 1 else 1
    case Writing(w, _, _, _) => if w.More() then LoopWork(w) - 2 else 1
    case Reporting(w) => 1
    case Finished(_) => 0
  }

  function TotalOutstanding(runs: seq<Run>, n: nat): nat {
    if runs == [] then 0 else Outstanding(runs[0].phase, n) + TotalOutstanding(runs[1..], n)
  }

  function Unrest(s: State, n: nat): nat {
    |s.cluster.paths| + TotalOutstanding(s.runs, n)
  }

  lemma {:induction false} TotalAfter(runs: seq<Run>, i: nat, r: Run, n: nat)
    requires i < |runs|
    ensures TotalOutstanding(runs[i := r], n) + Outstanding(runs[i].phase, n)
         == TotalOutstanding(runs, n) + Outstanding(r.phase, n)
  {
    if i == 0 {
      assert runs[0 := r][1..] == runs[1..];
    } else {
      TotalAfter(runs[1..], i - 1, r, n);
      assert runs[i := r][1..] == runs[1..][i - 1 := r];
    }
  }

  lemma LoopHeadWork(w: Work, n: nat)
    ensures Outstanding(LoopHead(w), n) <= LoopWork(w)
  {
  }

  lemma NextPeerWork(w: Work, a: Answer, n: nat)
    requires w.More()
    ensures Outstanding(LoopHead(w.Then(a)), n) + 4 <= LoopWork(w)
  {
    LoopHeadWork(w.Then(a), n);
  }

  lemma PathsAfterSend(c: Cluster, k: Key, base: Option<ComputedPath>, v: ComputedPath, fault: Fault)
    ensures |Send(c, StorePath(c, k, base, v), fault).0.paths| <= |c.paths| + 1
  {
  }

  /** The stepping run's own share: its outstanding calls fall by more than the paths it adds. */
  lemma RunStepWorks(s: State, e: Event, n: nat)
    requires Enabled(s, e) && IsRunStep(e) && (e.List? ==> |e.peers| <= n)
    ensures |Apply(s, e).cluster.paths| + Outstanding(Apply(s, e).runs[e.run].phase, n)
          < |s.cluster.paths| + Outstanding(s.runs[e.run].phase, n)
  {
    if e.Write? {
      WriteWorks(s, e, n);
    } else {
      OtherRunStepWorks(s, e, n);
    }
  }

  lemma WriteWorks(s: State, e: Event, n: nat)
    requires Enabled(s, e) && e.Write?
    ensures |Apply(s, e).cluster.paths| + Outstanding(Apply(s, e).runs[e.run].phase, n)
          < |s.cluster.paths| + Outstanding(s.runs[e.run].phase, n)
  {
    var r := s.runs[e.run];
    NextPeerWork(r.phase.work, r.phase.answer, n);
    PathsAfterSend(s.cluster, PathKey(r.key, r.phase.work.Peer()), r.phase.base, r.phase.obj, e.fault);
    hide StorePath; hide LoopHead;
  }

  lemma OtherRunStepWorks(s: State, e: Event, n: nat)
    requires Enabled(s, e) && IsRunStep(e) && !e.Write? && (e.List? ==> |e.peers| <= n)
    ensures Apply(s, e).cluster.paths == s.cluster.paths
    ensures Outstanding(Apply(s, e).runs[e.run].phase, n) < Outstanding(s.runs[e.run].phase, n)
  {
    hide Enabled; hide Apply; hide Outstanding; hide IsRunStep;
    OnlyWritesTouchPaths(s, e);
    if e.List? || e.Fetch? || e.Probe? {
      LoopStepWorks(s, e, n);
    } else {
      EndStepWorks(s, e, n);
    }
  }

  lemma LoopStepWorks(s: State, e: Event, n: nat)
    requires Enabled(s, e) && (e.List? || e.Fetch? || e.Probe?) && (e.List? ==> |e.peers| <= n)
    ensures Outstanding(Apply(s, e).runs[e.run].phase, n) < Outstanding(s.runs[e.run].phase, n)
  {
    hide LoopHead;
    var r := s.runs[e.run];
    match e
    case List(_, peers) => LoopHeadWork(Work(r.key, r.phase.snap, peers, []), n);
    case Fetch(_, _) => NextPeerWork(r.phase.work, NotReady, n);
    case Probe(_, _) => NextPeerWork(r.phase.work, r.phase.answer, n);
  }

  lemma EndStepWorks(s: State, e: Event, n: nat)
    requires Enabled(s, e) && IsRunStep(e) && !e.Write? && !(e.List? || e.Fetch? || e.Probe?)
    ensures Outstanding(Apply(s, e).runs[e.run].phase, n) < Outstanding(s.runs[e.run].phase, n)
  {
    hide LoopHead; hide Entries;
  }

  lemma RunStepRuns(s: State, e: Event)
    requires Enabled(s, e) && IsRunStep(e)
    ensures e.run < |Apply(s, e).runs|
    ensures Apply(s, e).runs == s.runs[e.run := Apply(s, e).runs[e.run]]
  {
  }

  lemma DrainStepCalms(s: State, e: Event, n: nat)
    requires Enabled(s, e) && IsDrainStep(e) && (e.List? ==> |e.peers| <= n)
    ensures Unrest(Apply(s, e), n) < Unrest(s, n)
  {
    if e.Collect? {
      assert |s.cluster.paths - {e.at}| == |s.cluster.paths| - 1 by {
        assert (s.cluster.paths - {e.at}).Keys == s.cluster.paths.Keys - {e.at};
      }
    } else {
      RunStepWorks(s, e, n);
      RunStepRuns(s, e);
      hide Apply; hide Enabled; hide Outstanding;
      TotalAfter(s.runs, e.run, Apply(s, e).runs[e.run], n);
    }
  }

  /** No drain takes longer than the unrest it starts from. */
  lemma {:induction false} DrainsEnd(s: State, es: seq<Event>, n: nat)
    requires Behaviour(s, es) && Drain(es, n)
    ensures |es| + Unrest(After(s, es), n) <= Unrest(s, n)
    decreases |es|
  {
    if es != [] {
      assert es[0] in es;
      DrainStepCalms(s, es[0], n);
      hide Apply; hide Enabled; hide Unrest;
      DrainsEnd(Apply(s, es[0]), es[1..], n);
    }
  }

  /** A state in which no drain step is possible. */
  ghost predicate AtRest(s: State) {
    forall e: Event :: IsDrainStep(e) ==> !Enabled(s, e)
  }

  /** At rest every run has finished, and every computed path that has owners has a live one. */
  lemma AtRestIffClean(s: State)
    ensures AtRest(s) <==>
            && (forall r <- s.runs :: !InFlight(r))
            && (forall at <- s.cluster.paths :: !Orphan(s, at))
  {
    if AtRest(s) {
      forall r <- s.runs
        ensures !InFlight(r)
      {
        var i :| 0 <= i < |s.runs| && s.runs[i] == r;
        assert !Enabled(s, Abort(i));
      }
      forall at <- s.cluster.paths
        ensures !Orphan(s, at)
      {
        assert !Enabled(s, Collect(at));
      }
    } else {
      var e: Event :| IsDrainStep(e) && Enabled(s, e);
      if e.Collect? {
        assert Orphan(s, e.at);
      } else {
        RunStepFrame(s, e);
        assert s.runs[e.run] in s.runs;
      }
    }
  }
}
