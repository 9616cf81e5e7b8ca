/** Kubernetes label selectors as `metav1.LabelSelectorAsSelector` reads them. */
module Selectors {
  import opened Naming

  type Labels = map<string, string>

  datatype Operator = In | NotIn | Exists | DoesNotExist | Unknown(text: string)

  datatype Requirement = Requirement(key: string, operator: Operator, values: seq<string>)

  datatype LabelSelector = LabelSelector(matchLabels: Labels, matchExpressions: seq<Requirement>)

  const MAX_LABEL := 63

  predicate LabelEnd(c: char) {
    Alphanumeric(c) || 'A' <= c <= 'Z'
  }

  /** The name part of a label key, and a label value that is not empty. */
  predicate LabelName(s: string) {
    && 0 < |s| <= MAX_LABEL && LabelEnd(s[0]) && LabelEnd(s[|s| - 1])
    && forall c <- s :: LabelEnd(c) || c in "-_."
  }

  /** A name, or a DNS subdomain, a slash and a name. */
  predicate LabelKey(k: string) {
    || LabelName(k)
    || exists i | 0 <= i < |k| :: k[i] == '/' && AdmittedName(k[..i]) && LabelName(k[i + 1..])
  }

  predicate LabelValue(v: string) {
    v == "" || LabelName(v)
  }

  /** Conversion to a selector fails on an unknown operator, on In/NotIn without values, on
      Exists/DoesNotExist with values, and on keys and values that no label could have. */
  predicate ValidRequirement(r: Requirement) {
    && LabelKey(r.key) && (forall v <- r.values :: LabelValue(v))
    && match r.operator
       case In => r.values != []
       case NotIn => r.values != []
       case Exists => r.values == []
       case DoesNotExist => r.values == []
       case Unknown(_) => false
  }

  predicate ValidSelector(s: LabelSelector) {
    && (forall k <- s.matchLabels :: LabelKey(k) && LabelValue(s.matchLabels[k]))
    && (forall r <- s.matchExpressions :: ValidRequirement(r))
  }

  predicate Satisfies(labels: Labels, r: Requirement) {
    match r.operator
    case In => r.key in labels && labels[r.key] in r.values
    case NotIn => r.key !in labels || labels[r.key] !in r.values
    case Exists => r.key in labels
    case DoesNotExist => r.key !in labels
    case Unknown(_) => false
  }

  /** All the requirements hold; the empty selector matches every pod. */
  predicate Matches(s: LabelSelector, labels: Labels) {
    && (forall k <- s.matchLabels :: k in labels && labels[k] == s.matchLabels[k])
    && (forall r <- s.matchExpressions :: Satisfies(labels, r))
  }

  // ---------------------------------------------------------------------------
  // What selectors mean
  // ---------------------------------------------------------------------------

  /** The four operators: Exists is about the key, In is about a key that is there with one of the values, and
      the other two are their opposites. */
  lemma OperatorsMean(labels: Labels, key: string, values: seq<string>)
    ensures Satisfies(labels, Requirement(key, Exists, []))
            <==> exists v :: v in labels.Values && HasLabel(labels, key, v)
    ensures Satisfies(labels, Requirement(key, In, values)) <==> exists v <- values :: HasLabel(labels, key, v)
    ensures Satisfies(labels, Requirement(key, NotIn, values)) <==> !Satisfies(labels, Requirement(key, In, values))
    ensures Satisfies(labels, Requirement(key, DoesNotExist, [])) <==> !Satisfies(labels, Requirement(key, Exists, []))
  {
    if key in labels {
      assert labels[key] in labels.Values && HasLabel(labels, key, labels[key]);
    }
  }

  predicate HasLabel(labels: Labels, key: string, value: string) {
    key in labels && labels[key] == value
  }

  /** A label that must match is the requirement that its key is in that one value; each requirement narrows the
      selection; and nothing required selects every pod. */
  lemma RequirementsNarrow(s: LabelSelector, key: string, value: string, r: Requirement, labels: Labels)
    ensures Matches(LabelSelector(map[], []), labels)
    ensures Matches(s.(matchExpressions := s.matchExpressions + [r]), labels)
            <==> Matches(s, labels) && Satisfies(labels, r)
    ensures key !in s.matchLabels ==>
              (Matches(s.(matchLabels := s.matchLabels[key := value]), labels)
               <==> Matches(s.(matchExpressions := s.matchExpressions + [Requirement(key, In, [value])]), labels))
  {
    var one := Requirement(key, In, [value]);
    assert forall x :: x in s.matchExpressions + [r] <==> x in s.matchExpressions || x == r;
    assert forall x :: x in s.matchExpressions + [one] <==> x in s.matchExpressions || x == one;
    assert Satisfies(labels, one) <==> HasLabel(labels, key, value);
  }

  /** Which selectors do not convert. */
  lemma InvalidIff(s: LabelSelector)
    ensures !ValidSelector(s)
       <==> || (exists k <- s.matchLabels :: !LabelKey(k) || !LabelValue(s.matchLabels[k]))
            || (exists r <- s.matchExpressions ::
                  || !LabelKey(r.key) || r.operator.Unknown? || (exists v <- r.values :: !LabelValue(v))
                  || ((r.operator == In || r.operator == NotIn) && |r.values| == 0)
                  || ((r.operator == Exists || r.operator == DoesNotExist) && |r.values| > 0))
  {
  }

  /** A key with a slash has it once, between a DNS subdomain and a name. */
  lemma KeyWithPrefixIff(prefix: string, name: string)
    requires '/' !in prefix
    ensures LabelKey(prefix + "/" + name) <==> AdmittedName(prefix) && LabelName(name)
  {
    var k := prefix + "/" + name;
    assert k[|prefix|] == '/' && k[..|prefix|] == prefix && k[|prefix| + 1..] == name;
    NoSlash(k);
    forall i | 0 <= i < |prefix|
      ensures k[i] != '/'
    {
      assert k[i] == prefix[i];
    }
    forall i | |prefix| < i <= |k|
      ensures !AdmittedName(k[..i])
    {
      assert k[..i][|prefix|] == '/';
      NoSlash(k[..i]);
    }
    hide AdmittedName; hide LabelName;
  }

  lemma NoSlash(s: string)
    ensures '/' in s ==> !AdmittedName(s) && !LabelName(s)
  {
    assert !LabelEnd('/') && '/' !in "-_.";
  }
}
