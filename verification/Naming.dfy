/** The object name `fmt.Sprintf("%s-to-%s", policy.Name, peer.Name)` that the
    reconciler gives a computed path, and exactly when two of them collide. */
module Naming {

  const SEPARATOR: string := "-to-"

  function ComputedPathName(policy: string, peer: string): string {
    policy + SEPARATOR + peer
  }

  /** `needle` occurs in `hay` at index `i`. */
  predicate OccursAt(needle: string, hay: string, i: nat) {
    i + |needle| <= |hay| && hay[i..i + |needle|] == needle
  }

  ghost predicate Occurs(needle: string, hay: string) {
    exists i: nat :: OccursAt(needle, hay, i)
  }

  /** A policy name that can share its computed path names with no shorter policy name. */
  ghost predicate Unambiguous(policy: string) {
    !Occurs(SEPARATOR, policy + "-")
  }

  /** The longer policy name is the shorter one, the separator, and then `rest`. */
  predicate ExtendsBy(longer: string, shorter: string, rest: string) {
    longer == shorter + SEPARATOR + rest
  }

  lemma NamesOfOnePolicyAreInjective(p1: string, q1: string, p2: string, q2: string)
    requires |p1| == |p2|
    requires ComputedPathName(p1, q1) == ComputedPathName(p2, q2)
    ensures p1 == p2 && q1 == q2
  {
    var n1, n2 := ComputedPathName(p1, q1), ComputedPathName(p2, q2);
    assert p1 == n1[..|p1|] && p2 == n2[..|p2|];
    assert q1 == n1[|p1| + 4..] && q2 == n2[|p2| + 4..];
  }

  /** The full collision law: a shorter and a longer policy name meet in exactly two ways. */
  lemma CollisionLaw(p1: string, q1: string, p2: string, q2: string)
    requires |p1| < |p2|
    ensures ComputedPathName(p1, q1) == ComputedPathName(p2, q2) <==>
            || (p2 == p1 + "-to" && q1 == "to-" + q2)
            || (exists w :: ExtendsBy(p2, p1, w) && q1 == w + SEPARATOR + q2)
  {
    var n1, n2 := ComputedPathName(p1, q1), ComputedPathName(p2, q2);
    if n1 == n2 {
      Overlap(p1, q1, p2, q2);
    }
    if p2 == p1 + "-to" && q1 == "to-" + q2 {
      assert SEPARATOR + "to-" == "-to" + SEPARATOR;
      assert n1 == p1 + (SEPARATOR + "to-") + q2;
      assert n2 == p1 + ("-to" + SEPARATOR) + q2;
    }
    if w :| ExtendsBy(p2, p1, w) && q1 == w + SEPARATOR + q2 {
      assert n1 == p1 + SEPARATOR + w + SEPARATOR + q2 == n2;
    }
  }

  lemma Overlap(p1: string, q1: string, p2: string, q2: string)
    requires |p1| < |p2|
    requires ComputedPathName(p1, q1) == ComputedPathName(p2, q2)
    ensures || (p2 == p1 + "-to" && q1 == "to-" + q2)
            || (exists w :: ExtendsBy(p2, p1, w) && q1 == w + SEPARATOR + q2)
  {
    var u := p2[|p1|..];
    SplitLonger(p1, SEPARATOR + q1, p2, SEPARATOR + q2);
    assert p1 + (SEPARATOR + q1) == ComputedPathName(p1, q1) && p2 + (SEPARATOR + q2) == ComputedPathName(p2, q2);
    if |u| < 4 {
      SplitLonger(u, SEPARATOR + q2, SEPARATOR, q1);
      assert (SEPARATOR + q2)[0] == '-' && (SEPARATOR[|u|..] + q1)[0] == SEPARATOR[|u|];
      assert |u| == 3;
      assert SEPARATOR == u + "-" && "-" + q1 == "-" + ("to-" + q2);
      SplitLonger("-", q1, "-", "to-" + q2);
    } else {
      var w := u[4..];
      SplitLonger(SEPARATOR, q1, u, SEPARATOR + q2);
      assert ExtendsBy(p2, p1, w);
      assert q1 == w + SEPARATOR + q2;
    }
  }

  /** Two ways to cut one text: the longer front part begins with the shorter one. */
  lemma SplitLonger(a: string, b: string, c: string, d: string)
    requires |a| <= |c|
    ensures a + b == c + d ==> c == a + c[|a|..] && b == c[|a|..] + d
  {
    if a + b == c + d {
      assert (a + b)[..|a|] == a && (c + d)[..|a|] == c[..|a|];
      assert (a + b)[|a|..] == b && (c + d)[|a|..] == c[|a|..] + d;
    }
  }

  /** Naming is injective on unambiguous policy names, whatever the peers are called. */
  lemma UnambiguousNamesNeverCollide(p1: string, q1: string, p2: string, q2: string)
    requires Unambiguous(p1) && Unambiguous(p2)
    requires ComputedPathName(p1, q1) == ComputedPathName(p2, q2)
    ensures p1 == p2 && q1 == q2
  {
    if |p1| == |p2| {
      NamesOfOnePolicyAreInjective(p1, q1, p2, q2);
    } else if |p1| < |p2| {
      LongerIsAmbiguous(p1, q1, p2, q2);
    } else {
      LongerIsAmbiguous(p2, q2, p1, q1);
    }
  }

  lemma LongerIsAmbiguous(p1: string, q1: string, p2: string, q2: string)
    requires |p1| < |p2|
    requires ComputedPathName(p1, q1) == ComputedPathName(p2, q2)
    ensures !Unambiguous(p2)
  {
    Overlap(p1, q1, p2, q2);
    assert (p2 + "-")[|p1|..|p1| + 4] == SEPARATOR;
    assert OccursAt(SEPARATOR, p2 + "-", |p1|);
  }

  /** The condition is exact over all texts: a policy name is unambiguous if and only if no
      shorter text ever produces one of its computed path names. */
  lemma UnambiguousIffNoCollision(p: string)
    ensures Unambiguous(p) <==>
            forall p1: string, q1: string, q: string ::
              |p1| < |p| ==> ComputedPathName(p1, q1) != ComputedPathName(p, q)
  {
    forall p1: string, q1: string, q: string
      | |p1| < |p| && ComputedPathName(p1, q1) == ComputedPathName(p, q)
      ensures !Unambiguous(p)
    {
      LongerIsAmbiguous(p1, q1, p, q);
    }
    if i: nat :| OccursAt(SEPARATOR, p + "-", i) {
      var p1, q := p[..i], "x";
      var hay := p + "-";
      assert hay[i..i + 4] == SEPARATOR;
      if i + 4 == |hay| {
        assert p == p1 + "-to" by {
          assert p[i..] == hay[i..i + 3] == SEPARATOR[..3];
        }
        CollisionLaw(p1, "to-" + q, p, q);
      } else {
        var w := p[i + 4..];
        assert p[i..i + 4] == SEPARATOR;
        assert ExtendsBy(p, p1, w);
        CollisionLaw(p1, w + SEPARATOR + q, p, q);
      }
    }
  }

  // ---------------------------------------------------------------------------
  // Names Kubernetes admits
  // ---------------------------------------------------------------------------

  predicate Alphanumeric(c: char) {
    'a' <= c <= 'z' || '0' <= c <= '9'
  }

  /** Nothing but lower-case letters, digits, '-' and '.', and every '.' between two letters or digits. */
  predicate WellSpelt(s: string) {
    forall i | 0 <= i < |s| ::
      || Alphanumeric(s[i]) || s[i] == '-'
      || (s[i] == '.' && 0 < i < |s| - 1 && Alphanumeric(s[i - 1]) && Alphanumeric(s[i + 1]))
  }

  /** A DNS subdomain (section 2.1 of RFC 1123), the limit on its length apart. */
  predicate ValidName(s: string) {
    s != "" && Alphanumeric(s[0]) && Alphanumeric(s[|s| - 1]) && WellSpelt(s)
  }

  /** The limit on the length of object names. */
  const MAX_NAME := 253

  predicate AdmittedName(s: string) {
    ValidName(s) && |s| <= MAX_NAME
  }

  /** The object name of admitted policy and peer names is always well spelt, and admitted if and only if the
      two leave room for the separator. */
  lemma NameIsAdmittedIff(policy: string, peer: string)
    requires AdmittedName(policy) && AdmittedName(peer)
    ensures AdmittedName(ComputedPathName(policy, peer)) <==> |policy| + 4 + |peer| <= MAX_NAME
  {
    ValidNamesJoin(policy, peer);
  }

  lemma ValidNamesJoin(a: string, b: string)
    requires ValidName(a) && ValidName(b)
    ensures ValidName(a + SEPARATOR + b)
    ensures ValidName("to-" + b)
  {
    var s, t := a + SEPARATOR + b, "to-" + b;
    forall i | 0 <= i < |s|
      ensures || Alphanumeric(s[i]) || s[i] == '-'
              || (s[i] == '.' && 0 < i < |s| - 1 && Alphanumeric(s[i - 1]) && Alphanumeric(s[i + 1]))
    {
      if i < |a| {
        assert s[i] == a[i];
      } else if i >= |a| + 4 {
        assert s[i] == b[i - |a| - 4];
      }
    }
    forall i | 0 <= i < |t|
      ensures || Alphanumeric(t[i]) || t[i] == '-'
              || (t[i] == '.' && 0 < i < |t| - 1 && Alphanumeric(t[i - 1]) && Alphanumeric(t[i + 1]))
    {
      if i >= 3 {
        assert t[i] == b[i - 3];
      }
    }
  }

  /** The end of a valid name is one, if it begins like one. */
  lemma ValidSuffix(s: string, i: nat)
    requires ValidName(s) && i < |s| && Alphanumeric(s[i])
    ensures ValidName(s[i..])
  {
  }

  /** Before index `i` stands a shorter valid name, and behind the separator nothing but its own last '-', or
      another valid name. */
  predicate AmbiguousAt(p: string, i: nat) {
    && OccursAt(SEPARATOR, p + "-", i)
    && ValidName(p[..i])
    && (i + 3 == |p| || ValidName(p[i + 4..]))
  }

  /** Both pairs of names are admitted, and so is the object name they share. */
  predicate AdmittedCollision(p1: string, q1: string, p: string, q: string) {
    && AdmittedName(p1) && AdmittedName(q1) && AdmittedName(p) && AdmittedName(q)
    && AdmittedName(ComputedPathName(p, q))
    && ComputedPathName(p1, q1) == ComputedPathName(p, q)
  }

  /** Among the names Kubernetes admits the condition is a little weaker, and again exact: a policy shares an
      object name with a shorter one if and only if the separator stands between valid names somewhere in
      its name followed by "-", and its name leaves room for the separator and a peer of one letter. */
  lemma AdmittedNamesCollideIff(p: string)
    requires AdmittedName(p)
    ensures (exists p1: string, q1: string, q: string :: |p1| < |p| && AdmittedCollision(p1, q1, p, q))
       <==> |p| + 5 <= MAX_NAME && exists i: nat :: AmbiguousAt(p, i)
  {
    if p1: string, q1: string, q: string :| |p1| < |p| && AdmittedCollision(p1, q1, p, q) {
      CollisionIsAmbiguous(p1, q1, p, q);
    }
    if i: nat :| AmbiguousAt(p, i) && |p| + 5 <= MAX_NAME {
      assert ValidName("x");
      var q1 := AmbiguousCollides(p, i, "x");
      NameIsAdmittedIff(p, "x");
      assert AdmittedCollision(p[..i], q1, p, "x");
    }
  }

  lemma CollisionIsAmbiguous(p1: string, q1: string, p: string, q: string)
    requires |p1| < |p| && ValidName(p) && ValidName(p1) && ValidName(q1) && ValidName(q)
    requires ComputedPathName(p1, q1) == ComputedPathName(p, q)
    ensures AmbiguousAt(p, |p1|)
  {
    CollisionLaw(p1, q1, p, q);
    var i := |p1|;
    assert (p + "-")[i..i + 4] == SEPARATOR && p[..i] == p1;
    if w :| ExtendsBy(p, p1, w) && q1 == w + SEPARATOR + q {
      assert w == p[i + 4..];
      assert p[|p| - 1] == (SEPARATOR + w)[|w| + 3] == if w == "" then '-' else w[|w| - 1];
      assert q1[0] == w[0] == p[i + 4];
      ValidSuffix(p, i + 4);
    }
  }

  lemma AmbiguousCollides(p: string, i: nat, q: string) returns (q1: string)
    requires ValidName(p) && AmbiguousAt(p, i) && ValidName(q)
    ensures i < |p| && ValidName(q1) && ComputedPathName(p[..i], q1) == ComputedPathName(p, q)
  {
    var hay := p + "-";
    assert hay[i..i + 4] == SEPARATOR;
    if i + 3 == |p| {
      q1 := "to-" + q;
      ValidNamesJoin(p, q);
      assert p == p[..i] + "-to" by {
        assert p[i..] == hay[i..i + 3] == SEPARATOR[..3];
      }
      CollisionLaw(p[..i], q1, p, q);
    } else {
      var w := p[i + 4..];
      q1 := w + SEPARATOR + q;
      ValidNamesJoin(w, q);
      assert p[i..i + 4] == hay[i..i + 4];
      assert ExtendsBy(p, p[..i], w);
      CollisionLaw(p[..i], q1, p, q);
    }
  }
}
