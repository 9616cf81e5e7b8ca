/** Querying and ordering paths, and the cache of the last good answer. */
module Paths {
  import opened Options
  import opened Printing

  /** A path of the SCION daemon; `raw` stands for whatever else it holds. */
  datatype SnetPath = SnetPath(interfaces: seq<PathInterface>, mtu: nat, raw: nat)

  datatype PathState = Active | Inactive | Probing | Congested | Down

  datatype SCIONPath = SCIONPath(
    internal: SnetPath, interfaces: seq<string>, id: nat, sorter: string,
    mtu: nat, payloadSize: nat, hops: nat, state: PathState)

  // ---------------------------------------------------------------------------
  // The order
  // ---------------------------------------------------------------------------

  predicate Alphabetical(a: string, b: string) {
    if b == "" then false
    else if a == "" then true
    else a[0] < b[0] || (a[0] == b[0] && Alphabetical(a[1..], b[1..]))
  }

  /** The comparison of SortPartsPaths: shorter first, then alphabetical. */
  predicate Less(a: string, b: string) {
    if |a| != |b| then |a| < |b| else Alphabetical(a, b)
  }

  lemma {:induction false} AlphabeticalOrder(a: string, b: string, c: string)
    requires |a| == |b| == |c|
    ensures !Alphabetical(a, a)
    ensures Alphabetical(a, b) && Alphabetical(b, c) ==> Alphabetical(a, c)
    ensures a != b ==> Alphabetical(a, b) || Alphabetical(b, a)
  {
    if a != "" {
      AlphabeticalOrder(a[1..], b[1..], c[1..]);
      if a[0] == b[0] && a[1..] == b[1..] {
        assert a == [a[0]] + a[1..] == b;
      }
    }
  }

  /** A strict total order on texts, so a strict weak order on paths. */
  lemma LessIsStrictTotalOrder(a: string, b: string, c: string)
    ensures !Less(a, a)
    ensures Less(a, b) && Less(b, c) ==> Less(a, c)
    ensures a != b ==> Less(a, b) || Less(b, a)
  {
    AlphabeticalOrder(a, a, a);
    if |a| == |b| {
      AlphabeticalOrder(a, b, b);
      if |b| == |c| {
        AlphabeticalOrder(a, b, c);
      }
    }
  }

  lemma NotLessTransitive(a: string, b: string, c: string)
    requires !Less(b, a) && !Less(c, b)
    ensures !Less(c, a)
  {
    LessIsStrictTotalOrder(a, b, c);
    LessIsStrictTotalOrder(b, c, a);
    LessIsStrictTotalOrder(c, a, b);
  }

  /** What the comparison means: a text that need not go behind another is shorter, or as long and equal, or as
      long and smaller at the first character in which they differ. */
  lemma {:induction false} NotLessMeans(s: string, t: string)
    requires !Less(t, s)
    ensures |s| <= |t|
    ensures |s| == |t| && s != t ==> exists k :: 0 <= k < |s| && s[..k] == t[..k] && s[k] < t[k]
    decreases |s|
  {
    if |s| == |t| && s != t {
      if s[0] == t[0] {
        assert s == [s[0]] + s[1..] && t == [t[0]] + t[1..];
        NotLessMeans(s[1..], t[1..]);
        var k :| 0 <= k < |s[1..]| && s[1..][..k] == t[1..][..k] && s[1..][k] < t[1..][k];
        assert s[..k + 1] == [s[0]] + s[1..][..k] && t[..k + 1] == [t[0]] + t[1..][..k];
        assert s[k + 1] < t[k + 1];
      } else {
        assert s[..0] == t[..0];
      }
    }
  }

  ghost predicate Sorted(s: seq<string>) {
    forall i, j | 0 <= i < j < |s| :: !Less(s[j], s[i])
  }

  lemma SmallestFirst(s: seq<string>, t: seq<string>)
    requires Sorted(s) && Sorted(t) && multiset(s) == multiset(t) && s != [] && t != []
    ensures s[0] == t[0]
  {
    assert s[0] in multiset(t) && t[0] in multiset(s);
    var i :| 0 <= i < |t| && t[i] == s[0];
    var j :| 0 <= j < |s| && s[j] == t[0];
    LessIsStrictTotalOrder(s[0], t[0], s[0]);
  }

  /** Sorting by Less leaves one possible order of the texts, whatever algorithm does it. */
  lemma {:induction false} SortedIsUnique(s: seq<string>, t: seq<string>)
    requires Sorted(s) && Sorted(t) && multiset(s) == multiset(t)
    ensures s == t
    decreases |s|
  {
    assert |s| == |multiset(s)| == |multiset(t)| == |t|;
    if s != [] {
      SmallestFirst(s, t);
      assert s == [s[0]] + s[1..] && t == [t[0]] + t[1..];
      assert multiset(s[1..]) == multiset(s) - multiset{s[0]};
      assert multiset(t[1..]) == multiset(t) - multiset{t[0]};
      SortedIsUnique(s[1..], t[1..]);
    }
  }

  // ---------------------------------------------------------------------------
  // Sorting paths
  // ---------------------------------------------------------------------------

  function Map<A, B>(f: A -> B, s: seq<A>): (r: seq<B>)
    ensures |r| == |s|
    ensures forall i | 0 <= i < |s| :: r[i] == f(s[i])
  {
    seq(|s|, i requires 0 <= i < |s| => f(s[i]))
  }

  function Sorters(paths: seq<SCIONPath>): seq<string> {
    Map((p: SCIONPath) => p.sorter, paths)
  }

  lemma MapAround<A, B>(f: A -> B, before: seq<A>, x: A, after: seq<A>)
    ensures multiset(Map(f, before + [x] + after)) == multiset(Map(f, before + after)) + multiset{f(x)}
  {
    assert Map(f, before + [x] + after) == Map(f, before) + [f(x)] + Map(f, after);
    assert Map(f, before + after) == Map(f, before) + Map(f, after);
  }

  lemma WithoutOne<A>(before: seq<A>, x: A, after: seq<A>)
    ensures multiset(before + [x] + after) - multiset{x} == multiset(before + after)
  {
  }

  lemma {:induction false} MapKeepsMultisets<A, B>(f: A -> B, s: seq<A>, t: seq<A>)
    requires multiset(s) == multiset(t)
    ensures multiset(Map(f, s)) == multiset(Map(f, t))
    decreases |s|
  {
    if s == [] {
      assert |multiset(t)| == 0;
    } else {
      var x, rest := s[0], s[1..];
      assert s == [] + [x] + rest && [] + rest == rest;
      assert x in multiset(s);
      var i :| 0 <= i < |t| && t[i] == x;
      var before, after := t[..i], t[i + 1..];
      assert t == before + [x] + after;
      WithoutOne([], x, rest);
      WithoutOne(before, x, after);
      MapKeepsMultisets(f, rest, before + after);
      MapAround(f, [], x, rest);
      MapAround(f, before, x, after);
    }
  }

  ghost predicate DistinctSorters(paths: seq<SCIONPath>) {
    forall i, j | 0 <= i < |paths| && 0 <= j < |paths| && paths[i].sorter == paths[j].sorter :: paths[i] == paths[j]
  }

  /** When the texts tell the paths apart, sorting leaves one possible order of the paths themselves. */
  lemma SortedPathsUnique(a: seq<SCIONPath>, b: seq<SCIONPath>)
    requires multiset(a) == multiset(b) && Sorted(Sorters(a)) && Sorted(Sorters(b)) && DistinctSorters(a)
    ensures a == b
  {
    MapKeepsMultisets((p: SCIONPath) => p.sorter, a, b);
    SortedIsUnique(Sorters(a), Sorters(b));
    assert |a| == |Sorters(a)| == |Sorters(b)| == |b|;
    forall i | 0 <= i < |a|
      ensures a[i] == b[i]
    {
      assert b[i] in multiset(b);
      assert b[i] in a;
      var j :| 0 <= j < |a| && a[j] == b[i];
      assert Sorters(a)[i] == a[i].sorter && Sorters(b)[i] == b[i].sorter;
    }
  }

  /** The paths in `a` between `lo` and `hi` are in order, the one at `but` aside. */
  ghost predicate OrderedBut(a: seq<SCIONPath>, hi: nat, but: int)
    requires hi <= |a|
  {
    forall p, q | 0 <= p < q < hi && q != but :: !Less(a[q].sorter, a[p].sorter)
  }

  function Swapped(a: seq<SCIONPath>, j: nat): seq<SCIONPath>
    requires 0 < j < |a|
  {
    a[j := a[j - 1]][j - 1 := a[j]]
  }

  /** Moving a path one place forward, past one that is not less, keeps the others in order. */
  lemma SwapKeeps(a: seq<SCIONPath>, hi: nat, j: nat)
    requires 0 < j < hi <= |a| && OrderedBut(a, hi, j) && Less(a[j].sorter, a[j - 1].sorter)
    requires forall q | j < q < hi :: !Less(a[q].sorter, a[j].sorter)
    ensures OrderedBut(Swapped(a, j), hi, j - 1)
    ensures forall q | j - 1 < q < hi :: !Less(Swapped(a, j)[q].sorter, Swapped(a, j)[j - 1].sorter)
  {
    LessIsStrictTotalOrder(a[j].sorter, a[j - 1].sorter, a[j].sorter);
    hide Less;
    var b := Swapped(a, j);
    forall p, q | 0 <= p < q < hi && q != j - 1
      ensures !Less(b[q].sorter, b[p].sorter)
    {
      if q == j && p < j - 1 {
        assert !Less(a[j - 1].sorter, a[p].sorter);
      }
    }
  }

  lemma SwapKeepsMultiset(a: seq<SCIONPath>, j: nat)
    requires 0 < j < |a|
    ensures multiset(Swapped(a, j)) == multiset(a)
  {
    assert a == a[..j - 1] + [a[j - 1]] + [a[j]] + a[j + 1..];
    assert Swapped(a, j) == a[..j - 1] + [a[j]] + [a[j - 1]] + a[j + 1..];
  }

  /** A path that is not less than the one before it is in its place. */
  lemma PlacedKeeps(a: seq<SCIONPath>, hi: nat, j: nat)
    requires j < hi <= |a| && OrderedBut(a, hi, j) && (j == 0 || !Less(a[j].sorter, a[j - 1].sorter))
    ensures OrderedBut(a, hi, -1)
  {
    hide Less;
    forall p | 0 <= p < j
      ensures !Less(a[j].sorter, a[p].sorter)
    {
      if p < j - 1 {
        assert !Less(a[j - 1].sorter, a[p].sorter);
        NotLessTransitive(a[p].sorter, a[j - 1].sorter, a[j].sorter);
      }
    }
  }

  /** One round of sort.Slice's insertion sort. */
  method Insert(a: array<SCIONPath>, i: nat)
    requires i < a.Length && OrderedBut(a[..], i, -1)
    modifies a
    ensures OrderedBut(a[..], i + 1, -1)
    ensures multiset(a[..]) == multiset(old(a[..]))
  {
    var j := i;
    assert OrderedBut(a[..], i + 1, j);
    while j > 0 && Less(a[j].sorter, a[j - 1].sorter)
      invariant 0 <= j <= i < a.Length
      invariant OrderedBut(a[..], i + 1, j)
      invariant forall q | j < q <= i :: !Less(a[..][q].sorter, a[..][j].sorter)
      invariant multiset(a[..]) == multiset(old(a[..]))
    {
      hide Less; hide OrderedBut;
      ghost var before := a[..];
      SwapKeeps(before, i + 1, j);
      SwapKeepsMultiset(before, j);
      a[j], a[j - 1] := a[j - 1], a[j];
      assert a[..] == Swapped(before, j);
      j := j - 1;
    }
    PlacedKeeps(a[..], i + 1, j);
  }

  /** SortPartsPaths, in place. */
  method SortPartsPaths(a: array<SCIONPath>)
    modifies a
    ensures multiset(a[..]) == multiset(old(a[..]))
    ensures Sorted(Sorters(a[..]))
    ensures forall i, j | 0 <= i < j < a.Length :: |a[i].sorter| <= |a[j].sorter|
    ensures forall i, j | 0 <= i < j < a.Length && |a[i].sorter| == |a[j].sorter| && a[i].sorter != a[j].sorter ::
              exists k :: 0 <= k < |a[i].sorter|
                          && a[i].sorter[..k] == a[j].sorter[..k] && a[i].sorter[k] < a[j].sorter[k]
  {
    for i := 0 to a.Length
      invariant OrderedBut(a[..], i, -1)
      invariant multiset(a[..]) == multiset(old(a[..]))
    {
      Insert(a, i);
    }
    SortedMeans(a[..]);
  }

  lemma SortedMeans(r: seq<SCIONPath>)
    requires Sorted(Sorters(r))
    ensures forall i, j | 0 <= i < j < |r| :: |r[i].sorter| <= |r[j].sorter|
    ensures forall i, j | 0 <= i < j < |r| && |r[i].sorter| == |r[j].sorter| && r[i].sorter != r[j].sorter ::
              exists k :: 0 <= k < |r[i].sorter|
                          && r[i].sorter[..k] == r[j].sorter[..k] && r[i].sorter[k] < r[j].sorter[k]
  {
    hide Less;
    forall i, j | 0 <= i < j < |r|
      ensures |r[i].sorter| <= |r[j].sorter|
      ensures |r[i].sorter| == |r[j].sorter| && r[i].sorter != r[j].sorter ==>
                exists k :: 0 <= k < |r[i].sorter|
                            && r[i].sorter[..k] == r[j].sorter[..k] && r[i].sorter[k] < r[j].sorter[k]
    {
      assert Sorters(r)[i] == r[i].sorter && Sorters(r)[j] == r[j].sorter;
      NotLessMeans(r[i].sorter, r[j].sorter);
    }
  }

  // ---------------------------------------------------------------------------
  // Querying
  // ---------------------------------------------------------------------------

  /** One path of the answer; `hash` is FNV-1a. */
  function PathOf(path: SnetPath, hash: string -> nat): SCIONPath {
    SCIONPath(path, Ids(path.interfaces), hash(PathText(path.interfaces)), SorterText(path.interfaces),
              path.mtu, 1200, |path.interfaces| / 2, Inactive)
  }

  function Converted(paths: seq<SnetPath>, hash: string -> nat): seq<SCIONPath> {
    Map((p: SnetPath) => PathOf(p, hash), paths)
  }

  /** The daemon's answer, converted and in order: what QueryPaths returns. */
  ghost predicate IsAnswer(answer: Option<seq<SnetPath>>, hash: string -> nat, r: Option<seq<SCIONPath>>) {
    && (r.Some? <==> answer.Some?)
    && (r.Some? ==> multiset(r.value) == multiset(Converted(answer.value, hash)) && Sorted(Sorters(r.value)))
  }

  /** What an answer holds: a failure if the daemon failed; else each of the daemon's paths once, every field
      read off it, the shorter texts first and texts of one length in alphabetical order. */
  lemma AnswerMeans(answer: Option<seq<SnetPath>>, hash: string -> nat, r: Option<seq<SCIONPath>>)
    requires IsAnswer(answer, hash, r)
    ensures r.None? <==> answer.None?
    ensures r.Some? ==> multiset(Map((p: SCIONPath) => p.internal, r.value)) == multiset(answer.value)
    ensures r.Some? ==> forall p <- r.value ::
              && p.mtu == p.internal.mtu && p.payloadSize == 1200 && p.state == Inactive
              && p.hops == |p.internal.interfaces| / 2
              && p.interfaces == Ids(p.internal.interfaces) && p.sorter == Join(p.interfaces, ',')
              && p.id == hash(Join(Texts(p.internal.interfaces), '-'))
    ensures r.Some? ==> forall i, j | 0 <= i < j < |r.value| :: |r.value[i].sorter| <= |r.value[j].sorter|
    ensures r.Some? ==>
              forall i, j | 0 <= i < j < |r.value|
                            && |r.value[i].sorter| == |r.value[j].sorter| && r.value[i].sorter != r.value[j].sorter ::
                exists k :: 0 <= k < |r.value[i].sorter|
                            && r.value[i].sorter[..k] == r.value[j].sorter[..k]
                            && r.value[i].sorter[k] < r.value[j].sorter[k]
  {
    if r.Some? {
      SortedMeans(r.value);
      AnswerFields(answer.value, hash, r.value);
      AnswerPaths(answer.value, hash, r.value);
    }
    hide Sorted; hide Less; hide Map; hide Converted; hide Ids; hide Texts; hide Join;
  }

  lemma AnswerPaths(paths: seq<SnetPath>, hash: string -> nat, r: seq<SCIONPath>)
    requires multiset(r) == multiset(Converted(paths, hash))
    ensures multiset(Map((p: SCIONPath) => p.internal, r)) == multiset(paths)
  {
    MapKeepsMultisets((p: SCIONPath) => p.internal, r, Converted(paths, hash));
    assert Map((p: SCIONPath) => p.internal, Converted(paths, hash)) == paths;
  }

  lemma AnswerFields(paths: seq<SnetPath>, hash: string -> nat, r: seq<SCIONPath>)
    requires multiset(r) == multiset(Converted(paths, hash))
    ensures forall p <- r ::
              && p.mtu == p.internal.mtu && p.payloadSize == 1200 && p.state == Inactive
              && p.hops == |p.internal.interfaces| / 2
              && p.interfaces == Ids(p.internal.interfaces) && p.sorter == Join(p.interfaces, ',')
              && p.id == hash(Join(Texts(p.internal.interfaces), '-'))
  {
    hide Join; hide Ids; hide Texts;
    forall p <- r
      ensures p in Converted(paths, hash)
    {
      assert p in multiset(r);
    }
  }

  method QueryPaths(answer: Option<seq<SnetPath>>, hash: string -> nat) returns (r: Option<seq<SCIONPath>>)
    ensures IsAnswer(answer, hash, r)
    ensures r.None? <==> answer.None?
    ensures r.Some? ==> forall i, j | 0 <= i < j < |r.value| :: |r.value[i].sorter| <= |r.value[j].sorter|
    ensures r.Some? ==>
              forall i, j | 0 <= i < j < |r.value|
                            && |r.value[i].sorter| == |r.value[j].sorter| && r.value[i].sorter != r.value[j].sorter ::
                exists k :: 0 <= k < |r.value[i].sorter|
                            && r.value[i].sorter[..k] == r.value[j].sorter[..k]
                            && r.value[i].sorter[k] < r.value[j].sorter[k]
    ensures r.Some? ==> forall p <- r.value ::
              && p.mtu == p.internal.mtu && p.payloadSize == 1200 && p.state == Inactive
              && p.hops == |p.internal.interfaces| / 2
              && p.interfaces == Ids(p.internal.interfaces) && p.sorter == Join(p.interfaces, ',')
              && p.id == hash(Join(Texts(p.internal.interfaces), '-'))
  {
    if answer.None? {
      return None;
    }
    var paths := answer.value;
    var made: seq<SCIONPath> := [];
    for i := 0 to |paths|
      invariant made == Converted(paths, hash)[..i]
    {
      var text := IdFromSnetPath(paths[i].interfaces);
      var ids := InterfacesToIds(paths[i].interfaces);
      made := made + [SCIONPath(paths[i], ids, hash(text), Join(ids, ','), paths[i].mtu, 1200,
                                |paths[i].interfaces| / 2, Inactive)];
    }
    assert made == Converted(paths, hash);
    var a := new SCIONPath[|made|](i requires 0 <= i < |made| => made[i]);
    assert a[..] == made;
    SortPartsPaths(a);
    r := Some(a[..]);
    AnswerMeans(answer, hash, r);
    hide IsAnswer; hide Less;
  }

  /** The interfaces tell the daemon's paths apart. */
  ghost predicate DistinctRoutes(paths: seq<SnetPath>) {
    && (forall p <- paths :: Printable(p.interfaces))
    && forall p, q | p in paths && q in paths && p.interfaces == q.interfaces :: p == q
  }

  lemma RoutesGiveSorters(paths: seq<SnetPath>, hash: string -> nat, r: seq<SCIONPath>)
    requires DistinctRoutes(paths) && multiset(r) == multiset(Converted(paths, hash))
    ensures DistinctSorters(r)
  {
    forall i, j | 0 <= i < |r| && 0 <= j < |r| && r[i].sorter == r[j].sorter
      ensures r[i] == r[j]
    {
      assert r[i] in multiset(r) && r[j] in multiset(r);
      assert r[i] in Converted(paths, hash) && r[j] in Converted(paths, hash);
      var k :| 0 <= k < |paths| && Converted(paths, hash)[k] == r[i];
      var l :| 0 <= l < |paths| && Converted(paths, hash)[l] == r[j];
      TextsIdentify(paths[k].interfaces, paths[l].interfaces);
    }
  }

  /** The answer does not depend on the order in which the daemon returned the paths. */
  lemma QueryIgnoresDaemonOrder(a: seq<SnetPath>, b: seq<SnetPath>, hash: string -> nat,
                                r: Option<seq<SCIONPath>>, s: Option<seq<SCIONPath>>)
    requires multiset(a) == multiset(b) && DistinctRoutes(a)
    requires IsAnswer(Some(a), hash, r) && IsAnswer(Some(b), hash, s)
    ensures r == s
  {
    MapKeepsMultisets((p: SnetPath) => PathOf(p, hash), a, b);
    RoutesGiveSorters(a, hash, r.value);
    SortedPathsUnique(r.value, s.value);
  }

  // ---------------------------------------------------------------------------
  // The cache
  // ---------------------------------------------------------------------------

  /** One query for a remote, and its result. */
  datatype Query = Query(remote: string, result: Option<seq<SCIONPath>>)

  /** Query `i` is the last successful one for `remote`. */
  ghost predicate IsLastGood(h: seq<Query>, remote: string, i: nat) {
    && i < |h| && h[i].remote == remote && h[i].result.Some?
    && forall j | i < j < |h| && h[j].remote == remote :: h[j].result.None?
  }

  /** What the history says the cache holds. */
  ghost predicate Reflects(paths: map<string, seq<SCIONPath>>, h: seq<Query>) {
    forall remote: string ::
      && (remote in paths <==> exists i: nat :: IsLastGood(h, remote, i))
      && (forall i: nat :: IsLastGood(h, remote, i) ==> remote in paths && paths[remote] == h[i].result.value)
  }

  lemma GoodQueryReflected(paths: map<string, seq<SCIONPath>>, h: seq<Query>, remote: string, good: seq<SCIONPath>)
    requires Reflects(paths, h)
    ensures Reflects(paths[remote := good], h + [Query(remote, Some(good))])
  {
    var g := h + [Query(remote, Some(good))];
    assert IsLastGood(g, remote, |h|);
    forall r: string, i: nat
      ensures IsLastGood(g, r, i) <==> if r == remote then i == |h| else IsLastGood(h, r, i)
    {
      if i < |h| {
        assert g[i] == h[i];
        assert g[|h|].remote == remote;
        assert forall j | i < j < |h| :: g[j] == h[j];
      }
    }
  }

  lemma FailedQueryReflected(paths: map<string, seq<SCIONPath>>, h: seq<Query>, remote: string)
    requires Reflects(paths, h)
    ensures Reflects(paths, h + [Query(remote, None)])
  {
    var g := h + [Query(remote, None)];
    forall r: string, i: nat
      ensures IsLastGood(g, r, i) <==> IsLastGood(h, r, i)
    {
      if i < |h| {
        assert g[i] == h[i];
        assert forall j | i < j < |h| :: g[j] == h[j];
      }
    }
  }

  class PathCache {
    var paths: map<string, seq<SCIONPath>>
    ghost var history: seq<Query>

    ghost predicate Valid()
      reads this
    {
      Reflects(paths, history)
    }

    constructor ()
      ensures Valid() && history == []
    {
      paths := map[];
      history := [];
    }

    /** Refresh never reports an error: a failed query leaves what was there. */
    method Refresh(remote: string, answer: Option<seq<SnetPath>>, hash: string -> nat)
      requires Valid()
      modifies this
      ensures Valid()
      ensures exists result :: IsAnswer(answer, hash, result) && history == old(history) + [Query(remote, result)]
      ensures forall other | other != remote ::
                (other in paths <==> other in old(paths)) && (other in paths ==> paths[other] == old(paths)[other])
    {
      var result := QueryPaths(answer, hash);
      if result.None? {
        FailedQueryReflected(paths, history, remote);
      } else {
        GoodQueryReflected(paths, history, remote, result.value);
        paths := paths[remote := result.value];
      }
      history := history + [Query(remote, result)];
    }

    /** Get answers with the last good result for the remote, this query's own if it succeeded, and
        with nothing if there never was one. */
    method Get(remote: string, answer: Option<seq<SnetPath>>, hash: string -> nat) returns (r: seq<SCIONPath>)
      requires Valid()
      modifies this
      ensures Valid()
      ensures |history| == |old(history)| + 1 && history[..|old(history)|] == old(history)
      ensures history[|old(history)|].remote == remote
      ensures IsAnswer(answer, hash, history[|old(history)|].result)
      ensures forall i: nat :: IsLastGood(history, remote, i) ==> r == history[i].result.value
      ensures (forall i: nat :: !IsLastGood(history, remote, i)) ==> r == []
      ensures answer.Some? ==> history[|old(history)|].result == Some(r)
      ensures forall other | other != remote ::
                (other in paths <==> other in old(paths)) && (other in paths ==> paths[other] == old(paths)[other])
    {
      Refresh(remote, answer, hash);
      ghost var last: nat := |old(history)|;
      assert answer.Some? ==> IsLastGood(history, remote, last);
      r := if remote in paths then paths[remote] else [];
    }
  }
}
