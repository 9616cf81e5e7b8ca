/** Which pod events wake the reconciler, and for which policies. */
module PodWatch {
  import opened Options
  import opened Selectors
  import opened Kube

  datatype Pod = Pod(ns: string, labels: Labels, ip: string)

  const DEFAULT_POLICY: Key := Key("kube-system", "default-scion-policy")

  // ---------------------------------------------------------------------------
  // The event filter
  // ---------------------------------------------------------------------------

  datatype PodEvent = Created(pod: Pod) | Updated(before: Pod, after: Pod) | Deleted(pod: Pod)

  /** podIPAssignedPredicate; it does not filter deletions. */
  predicate Passes(e: PodEvent) {
    match e
    case Created(pod) => pod.ip != ""
    case Updated(before, after) => before.ip == "" && after.ip != ""
    case Deleted(_) => true
  }

  /** What happens to one pod, in the order in which the informer delivers it. */
  datatype Change = Appears(pod: Pod) | Becomes(pod: Pod) | Vanishes

  function Now(h: seq<Change>): Option<Pod> {
    if h == [] then None
    else match h[|h| - 1]
      case Appears(pod) => Some(pod)
      case Becomes(pod) => Some(pod)
      case Vanishes => None
  }

  /** A pod appears when it is not there and changes or vanishes when it is. */
  predicate Possible(h: seq<Change>) {
    forall i | 0 <= i < |h| :: h[i].Appears? <==> Now(h[..i]).None?
  }

  function EventAt(h: seq<Change>, i: nat): PodEvent
    requires Possible(h) && i < |h|
  {
    match h[i]
    case Appears(pod) => Created(pod)
    case Becomes(pod) => Updated(Now(h[..i]).value, pod)
    case Vanishes => Deleted(Now(h[..i]).value)
  }

  /** After the first `n` changes the pod is there and has an IP. */
  predicate HasIP(h: seq<Change>, n: nat) {
    n <= |h| && Now(h[..n]).Some? && Now(h[..n]).value.ip != ""
  }

  predicate PassesAt(h: seq<Change>, i: nat) {
    Possible(h) && i < |h| && Passes(EventAt(h, i))
  }

  /** Event `i` passed the filter, and up to the first `n` changes the pod has had an IP ever since
      and no later event passed. */
  ghost predicate Announced(h: seq<Change>, i: nat, n: nat) {
    && i < n <= |h| && PassesAt(h, i)
    && (forall j: nat | i < j <= n :: HasIP(h, j))
    && (forall j: nat | i < j < n :: !PassesAt(h, j))
  }

  lemma NowIsLast(h: seq<Change>, n: nat)
    requires n < |h|
    ensures Now(h[..n + 1]) == if h[n].Vanishes? then None else Some(h[n].pod)
  {
  }

  /** An event after which the pod has an IP passes exactly when it had none before. */
  lemma PassesIffNew(h: seq<Change>, n: nat)
    requires Possible(h) && n < |h| && HasIP(h, n + 1)
    ensures PassesAt(h, n) <==> !HasIP(h, n)
  {
    NowIsLast(h, n);
  }

  /** Which events of a history pass: those after which the pod is gone, and those that give it an IP when it had
      none before, or was not there. */
  lemma PassesIff(h: seq<Change>, i: nat)
    requires Possible(h) && i < |h|
    ensures Passes(EventAt(h, i))
       <==> match h[i]
            case Vanishes => true
            case Appears(pod) => pod.ip != ""
            case Becomes(pod) => pod.ip != "" && Now(h[..i]).Some? && Now(h[..i]).value.ip == ""
  {
  }

  /** Whenever a pod has an IP, exactly one event has passed the filter since it last had none. */
  lemma {:induction false} IPIsAnnouncedOnce(h: seq<Change>, n: nat) returns (i: nat)
    requires Possible(h) && HasIP(h, n)
    ensures Announced(h, i, n)
    decreases n
  {
    assert 0 < n <= |h|;
    hide *;
    PassesIffNew(h, n - 1);
    if HasIP(h, n - 1) {
      i := IPIsAnnouncedOnce(h, n - 1);
      StillAnnounced(h, i, n - 1);
    } else {
      i := n - 1;
      NowAnnounced(h, i);
    }
  }

  lemma StillAnnounced(h: seq<Change>, i: nat, n: nat)
    requires n < |h| && Announced(h, i, n) && HasIP(h, n + 1) && !PassesAt(h, n)
    ensures Announced(h, i, n + 1)
  {
    hide HasIP; hide PassesAt;
  }

  lemma NowAnnounced(h: seq<Change>, i: nat)
    requires i < |h| && PassesAt(h, i) && HasIP(h, i + 1)
    ensures Announced(h, i, i + 1)
  {
    hide HasIP; hide PassesAt;
  }

  // ---------------------------------------------------------------------------
  // The mappers
  // ---------------------------------------------------------------------------

  /** The listed policies, in order, that have a valid selector which matches the pod. */
  function Matching(listed: seq<Key>, policies: map<Key, Policy>, pod: Pod): (r: seq<Key>)
    requires forall k <- listed :: k in policies
    ensures forall k :: k in r <==> k in listed && Selects(policies[k], pod)
  {
    if listed == [] then []
    else
      var n := |listed| - 1;
      var before := Matching(listed[..n], policies, pod);
      assert listed == listed[..n] + [listed[n]];
      if Selects(policies[listed[n]], pod) then before + [listed[n]] else before
  }

  predicate Selects(p: Policy, pod: Pod) {
    ValidSelector(p.spec.podSelector) && Matches(p.spec.podSelector, pod.labels)
  }

  /** A List in the pod's namespace returns exactly that namespace's policies. */
  ghost predicate ListsNamespace(listed: seq<Key>, policies: map<Key, Policy>, ns: string) {
    forall k :: k in listed <==> k in policies && k.ns == ns
  }

  /** What the mapper asks for: the matching policies of the pod's namespace, or the default policy when there
      are none. The error of a failed List is ignored, so nothing is listed then. */
  function Requests(pod: Pod, policies: map<Key, Policy>, listing: Option<seq<Key>>): (r: seq<Key>)
    requires listing.Some? ==> ListsNamespace(listing.value, policies, pod.ns)
    ensures r != []
  {
    var matching := Matching(listing.GetOr([]), policies, pod);
    if matching == [] then [DEFAULT_POLICY] else matching
  }

  ghost predicate SomeMatches(pod: Pod, policies: map<Key, Policy>) {
    exists k :: k in policies && k.ns == pod.ns && Selects(policies[k], pod)
  }

  /** Exactly the policies of the pod's namespace that select it, or exactly the default policy. */
  ghost predicate AsksFor(pod: Pod, policies: map<Key, Policy>, k: Key) {
    if SomeMatches(pod, policies) then k in policies && k.ns == pod.ns && Selects(policies[k], pod)
    else k == DEFAULT_POLICY
  }

  lemma RequestsAreMatching(pod: Pod, policies: map<Key, Policy>, listing: Option<seq<Key>>)
    requires listing.Some? ==> ListsNamespace(listing.value, policies, pod.ns)
    ensures listing.None? ==> Requests(pod, policies, listing) == [DEFAULT_POLICY]
    ensures listing.Some? ==> forall k :: k in Requests(pod, policies, listing) <==> AsksFor(pod, policies, k)
  {
    var matching := Matching(listing.GetOr([]), policies, pod);
    if listing.Some? {
      if matching == [] {
        assert forall k :: k !in matching;
      } else {
        assert matching[0] in matching;
      }
    }
  }

  /** podToPolicyMapper. */
  method PodToPolicies(pod: Pod, policies: map<Key, Policy>, listing: Option<seq<Key>>)
    returns (requests: seq<Key>)
    requires listing.Some? ==> ListsNamespace(listing.value, policies, pod.ns)
    ensures requests == Requests(pod, policies, listing)
    ensures requests != []
    ensures listing.None? ==> requests == [Key("kube-system", "default-scion-policy")]
    ensures listing.Some? ==> forall k :: k in requests <==> AsksFor(pod, policies, k)
    ensures listing.Some? && (forall k <- policies | k.ns == pod.ns :: !Selects(policies[k], pod))
            ==> requests == [Key("kube-system", "default-scion-policy")]
    ensures forall k <- requests ::
              || k == Key("kube-system", "default-scion-policy")
              || (k in policies && k.ns == pod.ns
                  && ValidSelector(policies[k].spec.podSelector)
                  && Matches(policies[k].spec.podSelector, pod.labels))
  {
    var items := listing.GetOr([]);
    requests := [];
    var hasSpecificPolicy := false;
    for i := 0 to |items|
      invariant requests == Matching(items[..i], policies, pod)
      invariant hasSpecificPolicy == (requests != [])
    {
      assert items[..i + 1][..i] == items[..i];
      var p := policies[items[i]];
      if !ValidSelector(p.spec.podSelector) {
        continue;
      }
      if Matches(p.spec.podSelector, pod.labels) {
        requests := requests + [items[i]];
        hasSpecificPolicy := true;
      }
    }
    assert items[..|items|] == items;
    if !hasSpecificPolicy {
      requests := requests + [DEFAULT_POLICY];
    }
    RequestsAreMatching(pod, policies, listing);
  }

  /** The watch maps an update twice, for the pod before and after it. */
  function Enqueued(e: PodEvent, policies: map<Key, Policy>, listing: Option<seq<Key>>): seq<Key>
    requires listing.Some? ==> ListsNamespace(listing.value, policies, NamespaceOf(e))
    requires e.Updated? ==> e.before.ns == e.after.ns
  {
    match e
    case Created(pod) => Requests(pod, policies, listing)
    case Updated(before, after) => Requests(before, policies, listing) + Requests(after, policies, listing)
    case Deleted(pod) => Requests(pod, policies, listing)
  }

  function NamespaceOf(e: PodEvent): string {
    match e
    case Created(pod) => pod.ns
    case Updated(_, after) => after.ns
    case Deleted(pod) => pod.ns
  }

  /** All that happens to a pod happens in its namespace. */
  predicate StaysIn(h: seq<Change>, ns: string) {
    forall i | 0 <= i < |h| :: !h[i].Vanishes? ==> h[i].pod.ns == ns
  }

  lemma {:induction false} NowStaysIn(h: seq<Change>, ns: string, n: nat)
    requires StaysIn(h, ns) && n <= |h| && Now(h[..n]).Some?
    ensures Now(h[..n]).value.ns == ns
  {
    NowIsLast(h, n - 1);
  }

  /** Filter and mapper together, over any history of a pod: whenever it has an IP, just one event announced
      that, and whatever policies there were when it was mapped, it enqueued each policy of the namespace that
      selects the pod as it then was, or the default policy if there is none, and nothing that is not asked for
      by the pod as it was just before or just after the event. */
  lemma PodsWithIPsAreServed(h: seq<Change>, ns: string, n: nat, policies: map<Key, Policy>, listed: seq<Key>)
    returns (i: nat)
    requires Possible(h) && StaysIn(h, ns) && HasIP(h, n) && ListsNamespace(listed, policies, ns)
    ensures Announced(h, i, n) && HasIP(h, i + 1)
    ensures var e, pod := EventAt(h, i), Now(h[..i + 1]).value;
            && NamespaceOf(e) == ns && (e.Updated? ==> e.before.ns == e.after.ns)
            && Enqueued(e, policies, Some(listed)) != []
            && (forall k :: AsksFor(pod, policies, k) ==> k in Enqueued(e, policies, Some(listed)))
            && (forall k :: k in Enqueued(e, policies, Some(listed))
                  ==> AsksFor(pod, policies, k) || (e.Updated? && AsksFor(e.before, policies, k)))
  {
    i := IPIsAnnouncedOnce(h, n);
    NowIsLast(h, i);
    assert HasIP(h, i + 1);
    NowStaysIn(h, ns, i + 1);
    var pod := Now(h[..i + 1]).value;
    RequestsAreMatching(pod, policies, Some(listed));
    if h[i].Becomes? {
      NowStaysIn(h, ns, i);
      RequestsAreMatching(Now(h[..i]).value, policies, Some(listed));
    }
  }

  /** A List in all namespaces returns exactly the stored policies. */
  ghost predicate ListsAll(listed: seq<Key>, policies: map<Key, Policy>) {
    forall k :: k in listed <==> k in policies
  }

  /** The peer watch enqueues every policy of every namespace, once for each time it is listed and in that
      order, or none when the List fails. */
  method PeerToPolicies(policies: map<Key, Policy>, listing: Option<seq<Key>>) returns (requests: seq<Key>)
    requires listing.Some? ==> ListsAll(listing.value, policies)
    ensures listing.None? ==> requests == []
    ensures listing.Some? ==> forall k :: k in requests <==> k in policies
    ensures listing.Some? ==> requests == listing.value
  {
    if listing.None? {
      return [];
    }
    var items := listing.value;
    var made := new Key[|items|](_ => DEFAULT_POLICY);
    for i := 0 to |items|
      invariant made[..i] == items[..i]
    {
      made[i] := items[i];
    }
    requests := made[..];
  }
}
