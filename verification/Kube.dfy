/** The part of the Kubernetes API server the reconciler talks to: the three kinds of
    objects, optimistic concurrency on resource versions, finalizer-guarded deletion and
    controller owner references. */
module Kube {
  import opened Options
  import opened Bytes
  import opened Selectors
  import opened Naming

  datatype Key = Key(ns: string, name: string)

  datatype Condition = Condition(status: bool, reason: string, destinations: nat, observedGeneration: nat)

  datatype PolicySpec = PolicySpec(podSelector: LabelSelector, preference: Option<string>)

  datatype Policy = Policy(
    uid: nat, rv: nat, generation: nat,
    deleting: bool, finalizers: set<string>,
    spec: PolicySpec, conditions: map<string, Condition>)

  datatype Peer = Peer(ns: string, name: string, remoteAS: string, podCIDR: string)

  datatype OwnerKind = ScionPathPolicy | OtherKind(kind: string)

  datatype OwnerRef = OwnerRef(kind: OwnerKind, name: string, uid: nat, controller: bool)

  datatype PathSpec = PathSpec(policyRef: string, destinationCidr: string, nextHopIP: string, hopFields: seq<byte>)

  datatype ComputedPath = ComputedPath(rv: nat, owners: seq<OwnerRef>, spec: PathSpec)

  /** `peers` is the order in which a cluster-wide List returns them. Every stored write
      takes the next resource version. */
  datatype Cluster = Cluster(
    policies: map<Key, Policy>, peers: seq<Peer>, paths: map<Key, ComputedPath>, nextRv: nat)

  function Find<V>(m: map<Key, V>, k: Key): Option<V> {
    if k in m then Some(m[k]) else None
  }

  // ---------------------------------------------------------------------------
  // Owner references
  // ---------------------------------------------------------------------------

  /** Two references name the same object when kind and name agree; the uid is not compared,
      so a policy recreated under its old name counts as the same owner. */
  predicate SameObject(a: OwnerRef, b: OwnerRef) {
    a.kind == b.kind && a.name == b.name
  }

  function ControllerOf(owners: seq<OwnerRef>): Option<OwnerRef> {
    if owners == [] then None
    else if owners[0].controller then Some(owners[0])
    else ControllerOf(owners[1..])
  }

  function Controllers(owners: seq<OwnerRef>): nat {
    if owners == [] then 0
    else (if owners[0].controller then 1 else 0) + Controllers(owners[1..])
  }

  /** SetControllerReference replaces the first reference to the same object or appends. */
  function Upsert(owners: seq<OwnerRef>, ref: OwnerRef): seq<OwnerRef> {
    if owners == [] then [ref]
    else if SameObject(owners[0], ref) then [ref] + owners[1..]
    else [owners[0]] + Upsert(owners[1..], ref)
  }

  /** The AlreadyOwnedError condition of SetControllerReference. */
  predicate OwnedByAnother(owners: seq<OwnerRef>, ref: OwnerRef) {
    var c := ControllerOf(owners);
    c.Some? && !SameObject(c.value, ref)
  }

  lemma {:induction false} UpsertIdempotent(owners: seq<OwnerRef>, ref: OwnerRef)
    ensures Upsert(Upsert(owners, ref), ref) == Upsert(owners, ref)
  {
    if owners == [] {
    } else if SameObject(owners[0], ref) {
      assert ([ref] + owners[1..])[1..] == owners[1..];
    } else {
      UpsertIdempotent(owners[1..], ref);
      assert ([owners[0]] + Upsert(owners[1..], ref))[1..] == Upsert(owners[1..], ref);
    }
  }

  lemma {:induction false} UpsertStaysOwned(owners: seq<OwnerRef>, ref: OwnerRef)
    requires ref.controller
    ensures ControllerOf(Upsert(owners, ref)).Some?
    ensures !OwnedByAnother(owners, ref) ==> SameObject(ControllerOf(Upsert(owners, ref)).value, ref)
    ensures Controllers(Upsert(owners, ref)) >= 1
  {
    if owners == [] {
    } else if SameObject(owners[0], ref) {
    } else {
      UpsertStaysOwned(owners[1..], ref);
      assert ([owners[0]] + Upsert(owners[1..], ref))[1..] == Upsert(owners[1..], ref);
    }
  }

  /** When a list has at most one controller, an upserted controller reference is it. */
  lemma {:induction false} UpsertMakesController(owners: seq<OwnerRef>, ref: OwnerRef)
    requires ref.controller
    requires Controllers(Upsert(owners, ref)) <= 1
    ensures ControllerOf(Upsert(owners, ref)) == Some(ref)
    ensures Controllers(Upsert(owners, ref)) == 1
  {
    if owners == [] {
    } else if SameObject(owners[0], ref) {
    } else {
      assert ([owners[0]] + Upsert(owners[1..], ref))[1..] == Upsert(owners[1..], ref);
      UpsertStaysOwned(owners[1..], ref);
      UpsertMakesController(owners[1..], ref);
    }
  }

  lemma {:induction false} ControllerControls(owners: seq<OwnerRef>)
    ensures ControllerOf(owners).Some? ==> ControllerOf(owners).value.controller
    ensures ControllerOf(owners).Some? <==> Controllers(owners) > 0
  {
    if owners != [] {
      ControllerControls(owners[1..]);
    }
  }

  lemma {:induction false} ControllerIsAnOwner(owners: seq<OwnerRef>)
    ensures ControllerOf(owners).Some? ==> ControllerOf(owners).value in owners
  {
    if owners != [] {
      ControllerIsAnOwner(owners[1..]);
      assert forall r <- owners[1..] :: r in owners;
    }
  }

  lemma {:induction false} UpsertAddsOneAtMost(owners: seq<OwnerRef>, ref: OwnerRef)
    ensures Controllers(Upsert(owners, ref)) <= Controllers(owners) + 1
  {
    if owners != [] && !SameObject(owners[0], ref) {
      UpsertAddsOneAtMost(owners[1..], ref);
      assert ([owners[0]] + Upsert(owners[1..], ref))[1..] == Upsert(owners[1..], ref);
    }
  }

  /** Setting the controller reference adds no second controller, if every reference to the same object was
      a controller reference already. */
  lemma UpsertAddsNoController(owners: seq<OwnerRef>, ref: OwnerRef)
    requires ref.controller && !OwnedByAnother(owners, ref) && Controllers(owners) <= 1
    requires forall r <- owners :: SameObject(r, ref) ==> r.controller
    ensures Controllers(Upsert(owners, ref)) <= 1
  {
    ControllerControls(owners);
    if ControllerOf(owners).None? {
      UpsertAddsOneAtMost(owners, ref);
    } else {
      UpsertReplacesController(owners, ref);
    }
  }

  lemma {:induction false} UpsertReplacesController(owners: seq<OwnerRef>, ref: OwnerRef)
    requires ref.controller && ControllerOf(owners).Some? && !OwnedByAnother(owners, ref)
    requires forall r <- owners :: SameObject(r, ref) ==> r.controller
    ensures Controllers(Upsert(owners, ref)) == Controllers(owners)
  {
    if !SameObject(owners[0], ref) {
      assert forall r <- owners[1..] :: r in owners;
      UpsertReplacesController(owners[1..], ref);
      assert ([owners[0]] + Upsert(owners[1..], ref))[1..] == Upsert(owners[1..], ref);
    } else {
      assert owners[0] in owners;
    }
  }

  /** In a list with one controller, where all references to an object are controller references, setting the
      controller reference leaves no other reference to that object. */
  lemma {:induction false} UpsertLeavesOneReference(owners: seq<OwnerRef>, ref: OwnerRef)
    requires Controllers(owners) <= 1 && forall r <- owners :: SameObject(r, ref) ==> r.controller
    ensures forall r <- Upsert(owners, ref) :: SameObject(r, ref) ==> r == ref
  {
    if owners != [] {
      assert forall r <- owners[1..] :: r in owners;
      if SameObject(owners[0], ref) {
        assert owners[0] in owners;
        forall r <- owners[1..]
          ensures !r.controller
        {
          NoControllers(owners[1..], r);
        }
      } else {
        UpsertLeavesOneReference(owners[1..], ref);
      }
    }
  }

  lemma {:induction false} NoControllers(owners: seq<OwnerRef>, r: OwnerRef)
    requires Controllers(owners) == 0 && r in owners
    ensures !r.controller
  {
    if r != owners[0] {
      NoControllers(owners[1..], r);
    }
  }

  // ---------------------------------------------------------------------------
  // Writes; `None` is a rejected request
  // ---------------------------------------------------------------------------

  function PutPolicy(c: Cluster, k: Key, p: Policy): Cluster {
    c.(policies := c.policies[k := p.(rv := c.nextRv)], nextRv := c.nextRv + 1)
  }

  function DropPolicy(c: Cluster, k: Key): Cluster {
    c.(policies := c.policies - {k})
  }

  function PutPath(c: Cluster, k: Key, v: ComputedPath): Cluster {
    c.(paths := c.paths[k := v.(rv := c.nextRv)], nextRv := c.nextRv + 1)
  }

  function DropPath(c: Cluster, k: Key): Cluster {
    c.(paths := c.paths - {k})
  }

  /** Update of a policy's metadata and spec. The status subresource is not touched; a stale
      resource version is a conflict; an unchanged object is not stored again; a policy under
      deletion whose last finalizer goes is removed. */
  function UpdatePolicy(c: Cluster, k: Key, p: Policy): Option<Cluster> {
    if k !in c.policies || c.policies[k].rv != p.rv then None
    else
      var q := p.(conditions := c.policies[k].conditions);
      if q == c.policies[k] then Some(c)
      else if q.deleting && q.finalizers == {} then Some(DropPolicy(c, k))
      else Some(PutPolicy(c, k, q))
  }

  /** Status().Update: only the conditions are taken from the request. */
  function UpdateStatus(c: Cluster, k: Key, p: Policy): Option<Cluster> {
    if k !in c.policies || c.policies[k].rv != p.rv then None
    else
      var q := c.policies[k].(conditions := p.conditions);
      if q == c.policies[k] then Some(c) else Some(PutPolicy(c, k, q))
  }

  /** Create (no base) or Update (of the version `base` that was read) of a computed path.
      The server admits at most one controller reference, and no new name over the limit. */
  function StorePath(c: Cluster, k: Key, base: Option<ComputedPath>, v: ComputedPath): Option<Cluster> {
    if Controllers(v.owners) > 1 then None
    else match base
      case None => if k in c.paths || |k.name| > MAX_NAME then None else Some(PutPath(c, k, v))
      case Some(b) =>
        if k !in c.paths || c.paths[k].rv != b.rv then None else Some(PutPath(c, k, v))
  }

  /** What may happen to one request on its way: nothing, it is lost before it takes effect,
      or its reply is lost after it took effect. */
  datatype Fault = Sound | Refused | LostReply

  /** The cluster after a request that would turn `c` into `effect`, and what the client sees. */
  function Send(c: Cluster, effect: Option<Cluster>, fault: Fault): (Cluster, bool) {
    match fault
    case Refused => (c, false)
    case LostReply => (effect.GetOr(c), false)
    case Sound => (effect.GetOr(c), effect.Some?)
  }
}
