/** What the peer loop makes of the computed paths, seen without resource versions: a fold over the
    listed peers, and what that fold leaves at each key. */
module Plans {
  import opened Naming
  import opened Kube
  import opened Reconciling

  /** A computed path without its resource version. */
  datatype Content = Content(owners: seq<OwnerRef>, spec: PathSpec)

  function Contents(paths: map<Key, ComputedPath>): map<Key, Content> {
    map k | k in paths :: Content(paths[k].owners, paths[k].spec)
  }

  function OwnersAt(m: map<Key, Content>, k: Key): seq<OwnerRef> {
    if k in m then m[k].owners else []
  }

  /** One policy's peers, in listing order, and the control service's answer for each. */
  datatype Plan = Plan(key: Key, uid: nat, peers: seq<Peer>, answers: seq<Answer>) {
    ghost predicate Valid() {
      |answers| == |peers|
    }
    function Ref(): OwnerRef {
      OwnerRef(ScionPathPolicy, key.name, uid, true)
    }
    function At(j: nat): Key
      requires j < |peers|
    {
      PathKey(key, peers[j])
    }
    predicate AllReady() {
      forall a <- answers :: a.Ready?
    }
    ghost predicate NoErrors() {
      forall a <- answers :: !a.Unreachable?
    }
  }

  /** The path of peer `j` written over whatever `m` holds at its key. */
  function Written(m: map<Key, Content>, p: Plan, j: nat): map<Key, Content>
    requires j < |p.peers| == |p.answers| && p.answers[j].Ready?
  {
    m[p.At(j) := Content(Upsert(OwnersAt(m, p.At(j)), p.Ref()), Target(p.key, p.peers[j], p.answers[j]))]
  }

  /** The computed paths once the first `n` peers have been dealt with. */
  function Desired(m: map<Key, Content>, p: Plan, n: nat): map<Key, Content>
    requires p.Valid() && n <= |p.peers|
  {
    if n == 0 then m
    else
      var before := Desired(m, p, n - 1);
      if p.answers[n - 1].Ready? then Written(before, p, n - 1) else before
  }

  /** The last of the first `n` peers whose path lies at `k` and is ready, or -1. */
  function LastWriter(p: Plan, k: Key, n: nat): int
    requires p.Valid() && n <= |p.peers|
  {
    if n == 0 then -1
    else if p.answers[n - 1].Ready? && p.At(n - 1) == k then n - 1
    else LastWriter(p, k, n - 1)
  }

  lemma {:induction false} LastWriterIsLast(p: Plan, k: Key, n: nat)
    requires p.Valid() && n <= |p.peers|
    ensures var j := LastWriter(p, k, n);
            && -1 <= j < n
            && (j >= 0 ==> p.answers[j].Ready? && p.At(j) == k)
            && (forall i | 0 <= i < n && p.answers[i].Ready? && p.At(i) == k :: i <= j)
  {
    if n > 0 {
      LastWriterIsLast(p, k, n - 1);
    }
  }

  /** The fold at one key: untouched, or the last ready peer's path under the policy's control. */
  ghost predicate Settles(m: map<Key, Content>, d: map<Key, Content>, p: Plan, n: nat, k: Key)
    requires p.Valid() && n <= |p.peers|
  {
    var j := LastWriter(p, k, n);
    if j < 0 then SameAt(m, d, k)
    else
      && j < n && p.answers[j].Ready?
      && k in d
      && d[k] == Content(Upsert(OwnersAt(m, k), p.Ref()), Target(p.key, p.peers[j], p.answers[j]))
  }

  predicate SameAt(m: map<Key, Content>, d: map<Key, Content>, k: Key) {
    (k in m <==> k in d) && (k in m ==> m[k] == d[k])
  }

  lemma {:induction false} DesiredAt(m: map<Key, Content>, p: Plan, n: nat, k: Key)
    requires p.Valid() && n <= |p.peers|
    ensures Settles(m, Desired(m, p, n), p, n, k)
  {
    if n > 0 {
      DesiredAt(m, p, n - 1, k);
      LastWriterIsLast(p, k, n - 1);
      UpsertIdempotent(OwnersAt(m, k), p.Ref());
    }
  }

  /** Two maps that settle the same way everywhere are equal. */
  lemma SettledAreEqual(m: map<Key, Content>, d: map<Key, Content>, e: map<Key, Content>)
    requires forall k :: SameAt(d, e, k)
    ensures d == e
  {
    assert forall k <- d.Keys :: SameAt(d, e, k);
    assert forall k <- e.Keys :: SameAt(d, e, k);
    assert d.Keys == e.Keys;
  }

  // ---------------------------------------------------------------------------
  // Maps a partial run may leave
  // ---------------------------------------------------------------------------

  predicate IsTarget(p: Plan, k: Key)
    requires p.Valid()
  {
    LastWriter(p, k, |p.peers|) >= 0
  }

  /** `d` differs from `m` only at ready peers' keys, and there the policy took control. */
  predicate TouchedAt(m: map<Key, Content>, d: map<Key, Content>, p: Plan, k: Key)
    requires p.Valid()
  {
    || SameAt(m, d, k)
    || (IsTarget(p, k) && k in d && d[k].owners == Upsert(OwnersAt(m, k), p.Ref()))
  }

  ghost predicate Touched(m: map<Key, Content>, d: map<Key, Content>, p: Plan)
    requires p.Valid()
  {
    forall k :: TouchedAt(m, d, p, k)
  }

  lemma TouchedTransitive(m: map<Key, Content>, d: map<Key, Content>, e: map<Key, Content>, p: Plan)
    requires p.Valid() && Touched(m, d, p) && Touched(d, e, p)
    ensures Touched(m, e, p)
  {
    forall k
      ensures TouchedAt(m, e, p, k)
    {
      assert TouchedAt(m, d, p, k) && TouchedAt(d, e, p, k);
      UpsertIdempotent(OwnersAt(m, k), p.Ref());
    }
  }

  lemma WrittenTouches(m: map<Key, Content>, p: Plan, j: nat)
    requires p.Valid() && j < |p.peers| && p.answers[j].Ready?
    ensures Touched(m, Written(m, p, j), p)
  {
    LastWriterIsLast(p, p.At(j), |p.peers|);
  }

  /** The whole fold forgets what partial runs left behind. */
  lemma DesiredForgets(m: map<Key, Content>, d: map<Key, Content>, p: Plan)
    requires p.Valid() && Touched(m, d, p)
    ensures Desired(d, p, |p.peers|) == Desired(m, p, |p.peers|)
  {
    var n := |p.peers|;
    forall k
      ensures SameAt(Desired(d, p, n), Desired(m, p, n), k)
    {
      DesiredAt(m, p, n, k);
      DesiredAt(d, p, n, k);
      assert TouchedAt(m, d, p, k);
      UpsertIdempotent(OwnersAt(m, k), p.Ref());
    }
    SettledAreEqual(m, Desired(d, p, n), Desired(m, p, n));
  }

  lemma DesiredTouches(m: map<Key, Content>, p: Plan)
    requires p.Valid()
    ensures Touched(m, Desired(m, p, |p.peers|), p)
  {
    forall k
      ensures TouchedAt(m, Desired(m, p, |p.peers|), p, k)
    {
      DesiredAt(m, p, |p.peers|, k);
    }
  }

  // ---------------------------------------------------------------------------
  // Order of listing
  // ---------------------------------------------------------------------------

  lemma DistinctNamesDistinctKeys(p: Plan, i: nat, j: nat)
    requires DistinctNames(p.peers) && i < |p.peers| && j < |p.peers| && p.At(i) == p.At(j)
    ensures i == j
  {
    NamesOfOnePolicyAreInjective(p.key.name, p.peers[i].name, p.key.name, p.peers[j].name);
  }

  lemma OwnLastWriter(p: Plan, j: nat)
    requires p.Valid() && DistinctNames(p.peers) && j < |p.peers| && p.answers[j].Ready?
    ensures LastWriter(p, p.At(j), |p.peers|) == j
  {
    var i := LastWriter(p, p.At(j), |p.peers|);
    LastWriterIsLast(p, p.At(j), |p.peers|);
    DistinctNamesDistinctKeys(p, i, j);
  }

  /** The answers depend on the peer only. */
  ghost predicate AnswersFrom(p: Plan, answer: Peer -> Answer) {
    p.Valid() && forall j | 0 <= j < |p.peers| :: p.answers[j] == answer(p.peers[j])
  }

  ghost predicate Reordered(p: Plan, q: Plan) {
    p.key == q.key && p.uid == q.uid && multiset(p.peers) == multiset(q.peers)
  }

  lemma ReorderedAt(p: Plan, q: Plan, answer: Peer -> Answer, m: map<Key, Content>, k: Key)
    requires Reordered(p, q) && AnswersFrom(p, answer) && AnswersFrom(q, answer)
    requires DistinctNames(p.peers) && DistinctNames(q.peers)
    requires IsTarget(p, k)
    ensures SameAt(Desired(m, p, |p.peers|), Desired(m, q, |q.peers|), k)
  {
    var i := LastWriter(p, k, |p.peers|);
    LastWriterIsLast(p, k, |p.peers|);
    assert p.peers[i] in multiset(p.peers);
    assert p.peers[i] in q.peers;
    var j :| 0 <= j < |q.peers| && q.peers[j] == p.peers[i];
    OwnLastWriter(q, j);
    DesiredAt(m, p, |p.peers|, k);
    DesiredAt(m, q, |q.peers|, k);
  }

  /** With distinct peer names the order in which peers are listed does not matter. */
  lemma DesiredIgnoresOrder(p: Plan, q: Plan, answer: Peer -> Answer, m: map<Key, Content>)
    requires Reordered(p, q) && AnswersFrom(p, answer) && AnswersFrom(q, answer)
    requires DistinctNames(p.peers) && DistinctNames(q.peers)
    ensures Desired(m, p, |p.peers|) == Desired(m, q, |q.peers|)
  {
    forall k
      ensures SameAt(Desired(m, p, |p.peers|), Desired(m, q, |q.peers|), k)
    {
      if IsTarget(p, k) {
        ReorderedAt(p, q, answer, m, k);
      } else if IsTarget(q, k) {
        ReorderedAt(q, p, answer, m, k);
      } else {
        DesiredAt(m, p, |p.peers|, k);
        DesiredAt(m, q, |q.peers|, k);
      }
    }
    SettledAreEqual(m, Desired(m, p, |p.peers|), Desired(m, q, |q.peers|));
  }
}
