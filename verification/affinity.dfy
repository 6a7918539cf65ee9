/** Required node affinity: its meaning, and the rewriting that restricts a pod to nodes with enough free GPUs. */
module Affinity {
  import opened Wrappers
  import opened Text

  const GPUS_FREE := "slurm-num-gpus-free"

  datatype Operator = In | NotIn | Exists | DoesNotExist | Gt | Lt

  datatype Requirement = Requirement(key: string, op: Operator, values: seq<string>)

  datatype Term = Term(matchExpressions: seq<Requirement>, matchFields: seq<Requirement>)

  /** A nil pointer or slice is `None`; a non-nil slice of terms may be empty. */
  datatype NodeSelector = NodeSelector(terms: Option<seq<Term>>)

  datatype NodeAffinity = NodeAffinity(required: Option<NodeSelector>, preferred: seq<string>)

  datatype PodAffinity = PodAffinity(nodeAffinity: Option<NodeAffinity>, podAffinity: seq<string>, podAntiAffinity: seq<string>)

  datatype Node = Node(labels: map<string, string>, fields: map<string, string>)

  // ----- Meaning -----------------------------------------------------------------------------

  /** Both texts are integers, and the first is the smaller one. */
  predicate Below(a: string, b: string) {
    Atoi(a).Some? && Atoi(b).Some? && Atoi(a).value < Atoi(b).value
  }

  predicate Matches(r: Requirement, labels: map<string, string>) {
    match r.op
    case In => r.key in labels && labels[r.key] in r.values
    case NotIn => r.key in labels ==> labels[r.key] !in r.values
    case Exists => r.key in labels
    case DoesNotExist => r.key !in labels
    case Gt => r.key in labels && |r.values| == 1 && Below(r.values[0], labels[r.key])
    case Lt => r.key in labels && |r.values| == 1 && Below(labels[r.key], r.values[0])
  }

  /** A term without expressions and fields matches no node. */
  predicate EmptyTerm(t: Term) { t.matchExpressions == [] && t.matchFields == [] }

  predicate AllMatch(rs: seq<Requirement>, labels: map<string, string>) {
    forall r :: r in rs ==> Matches(r, labels)
  }

  predicate TermMatches(t: Term, node: Node) {
    && !EmptyTerm(t)
    && AllMatch(t.matchExpressions, node.labels)
    && AllMatch(t.matchFields, node.fields)
  }

  function TermsOf(s: NodeSelector): seq<Term> { s.terms.GetOr([]) }

  predicate SelectorMatches(s: NodeSelector, node: Node) {
    exists t :: t in TermsOf(s) && TermMatches(t, node)
  }

  /** The node selector that scheduling requires, if there is one. */
  function RequiredSelector(a: Option<PodAffinity>): Option<NodeSelector> {
    if a.None? || a.value.nodeAffinity.None? then None else a.value.nodeAffinity.value.required
  }

  predicate Admits(a: Option<PodAffinity>, node: Node) {
    RequiredSelector(a).Some? ==> SelectorMatches(RequiredSelector(a).value, node)
  }

  /** The node does not say that it has fewer than `n` free GPUs. */
  predicate EnoughGpus(node: Node, n: nat) {
    GPUS_FREE in node.labels ==> forall i: nat :: i < n ==> node.labels[GPUS_FREE] != PrintNat(i)
  }

  // ----- The rewriting -----------------------------------------------------------------------

  function GpuRequirement(n: nat): Requirement {
    Requirement(GPUS_FREE, NotIn, seq(n, i requires 0 <= i < n => PrintNat(i)))
  }

  /** The loop that collects the decimals below `ngpus`. */
  method DecimalsBelow(ngpus: int) returns (values: seq<string>)
    ensures |values| == if ngpus > 0 then ngpus else 0
    ensures forall i: nat :: i < |values| ==> values[i] == PrintNat(i)
  {
    values := [];
    var i := 0;
    while i < ngpus
      invariant 0 <= i == |values| && (ngpus >= 0 ==> i <= ngpus) && (ngpus < 0 ==> i == 0)
      invariant forall j: nat :: j < i ==> values[j] == PrintNat(j)
    {
      values := values + [PrintInt(i)];
      i := i + 1;
    }
  }

  /** Every term gets the requirement. */
  function Strengthen(terms: seq<Term>, r: Requirement): (res: seq<Term>)
    ensures |res| == |terms|
    ensures forall i :: 0 <= i < |terms| ==> res[i] == terms[i].(matchExpressions := terms[i].matchExpressions + [r])
  {
    seq(|terms|, i requires 0 <= i < |terms| => terms[i].(matchExpressions := terms[i].matchExpressions + [r]))
  }

  function RewrittenSelector(s: Option<NodeSelector>, r: Requirement): NodeSelector {
    if s.None? || s.value.terms.None? then NodeSelector(Some([Term([r], [])]))
    else NodeSelector(Some(Strengthen(s.value.terms.value, r)))
  }

  /** Of a pod's affinity only the required node selector changes. */
  function Rewritten(a: Option<PodAffinity>, n: nat): PodAffinity {
    var r := Some(RewrittenSelector(RequiredSelector(a), GpuRequirement(n)));
    if a.None? then PodAffinity(Some(NodeAffinity(r, [])), [], [])
    else if a.value.nodeAffinity.None? then a.value.(nodeAffinity := Some(NodeAffinity(r, [])))
    else a.value.(nodeAffinity := Some(a.value.nodeAffinity.value.(required := r)))
  }

  /** The rewriting with its five cases, by how much of the affinity is present. */
  method RestrictToGpuNodes(affinity: Option<PodAffinity>, ngpus: int) returns (a: PodAffinity)
    requires ngpus > 0
    ensures a == Rewritten(affinity, ngpus)
  {
    var values := DecimalsBelow(ngpus);
    var requirement := Requirement(GPUS_FREE, NotIn, values);
    assert requirement == GpuRequirement(ngpus);
    var selector := NodeSelector(Some([Term([requirement], [])]));
    if affinity.None? {
      a := PodAffinity(Some(NodeAffinity(Some(selector), [])), [], []);
    } else if affinity.value.nodeAffinity.None? {
      a := affinity.value.(nodeAffinity := Some(NodeAffinity(Some(selector), [])));
    } else if affinity.value.nodeAffinity.value.required.None? {
      a := affinity.value.(nodeAffinity := Some(affinity.value.nodeAffinity.value.(required := Some(selector))));
    } else if affinity.value.nodeAffinity.value.required.value.terms.None? {
      a := affinity.value.(nodeAffinity := Some(affinity.value.nodeAffinity.value.(required := Some(selector))));
    } else {
      var terms := affinity.value.nodeAffinity.value.required.value.terms.value;
      ghost var terms0 := terms;
      for i := 0 to |terms|
        invariant |terms| == |terms0|
        invariant forall j :: 0 <= j < i ==>
          terms[j] == terms0[j].(matchExpressions := terms0[j].matchExpressions + [requirement])
        invariant forall j :: i <= j < |terms| ==> terms[j] == terms0[j]
      {
        terms := terms[i := terms[i].(matchExpressions := terms[i].matchExpressions + [requirement])];
      }
      assert terms == Strengthen(terms0, requirement);
      a := affinity.value.(
        nodeAffinity := Some(affinity.value.nodeAffinity.value.(required := Some(NodeSelector(Some(terms))))));
    }
  }

  // ----- What the rewriting means --------------------------------------------------------------

  lemma GpuRequirementMeaning(node: Node, n: nat)
    ensures Matches(GpuRequirement(n), node.labels) <==> EnoughGpus(node, n)
  {
    var values := GpuRequirement(n).values;
    if GPUS_FREE in node.labels {
      var v := node.labels[GPUS_FREE];
      if v in values {
        var i :| 0 <= i < |values| && values[i] == v;
        assert v == PrintNat(i);
      }
      forall i: nat | i < n && v == PrintNat(i) ensures v in values {
        assert values[i] == v;
      }
    }
  }

  /** For a node whose label is a decimal, the restriction is `at least n free GPUs`. */
  lemma EnoughGpusOfDecimal(node: Node, n: nat, free: nat)
    requires GPUS_FREE in node.labels && node.labels[GPUS_FREE] == PrintNat(free)
    ensures EnoughGpus(node, n) <==> free >= n
  {
    forall i: nat | i < n ensures PrintNat(free) == PrintNat(i) <==> free == i {
      PrintNatInjective(free, i);
    }
  }

  lemma StrengthenedTerm(t: Term, r: Requirement, node: Node)
    ensures TermMatches(t.(matchExpressions := t.matchExpressions + [r]), node) <==>
            Matches(r, node.labels) && (TermMatches(t, node) || EmptyTerm(t))
  {
  }

  /** A required selector that the rewriting widens: a nil list of terms, or a term that matches nothing. */
  predicate Widened(a: Option<PodAffinity>) {
    RequiredSelector(a).Some? &&
    (RequiredSelector(a).value.terms.None? || exists t :: t in RequiredSelector(a).value.terms.value && EmptyTerm(t))
  }

  lemma StrengthenedSelector(terms: seq<Term>, r: Requirement, node: Node)
    ensures SelectorMatches(NodeSelector(Some(Strengthen(terms, r))), node) <==>
            Matches(r, node.labels)
            && (SelectorMatches(NodeSelector(Some(terms)), node) || exists t :: t in terms && EmptyTerm(t))
  {
    var terms' := Strengthen(terms, r);
    if SelectorMatches(NodeSelector(Some(terms')), node) {
      var t' :| t' in terms' && TermMatches(t', node);
      var i :| 0 <= i < |terms'| && terms'[i] == t';
      StrengthenedTerm(terms[i], r, node);
      assert terms[i] in terms;
    }
    forall i | 0 <= i < |terms| && Matches(r, node.labels) && (TermMatches(terms[i], node) || EmptyTerm(terms[i]))
      ensures SelectorMatches(NodeSelector(Some(terms')), node)
    {
      StrengthenedTerm(terms[i], r, node);
      assert terms'[i] in terms' && TermMatches(terms'[i], node);
    }
  }

  /** For every affinity, node and number of GPUs: the rewritten affinity admits the node if and only if the node has
      enough GPUs and the original affinity admitted it or was widened. */
  lemma RewrittenMeaning(a: Option<PodAffinity>, n: nat, node: Node)
    ensures Admits(Some(Rewritten(a, n)), node) <==> EnoughGpus(node, n) && (Admits(a, node) || Widened(a))
  {
    GpuRequirementMeaning(node, n);
    var s, r := RequiredSelector(a), GpuRequirement(n);
    assert RequiredSelector(Some(Rewritten(a, n))) == Some(RewrittenSelector(s, r));
    if s.Some? && s.value.terms.Some? {
      StrengthenedSelector(s.value.terms.value, r, node);
      assert s.value == NodeSelector(Some(s.value.terms.value));
    } else {
      var t := Term([r], []);
      StrengthenedTerm(Term([], []), r, node);
      assert [] + [r] == [r];
      assert TermsOf(RewrittenSelector(s, r)) == [t];
    }
  }

  /** Everything but the required selector of an affinity. */
  function OtherParts(a: Option<PodAffinity>): (seq<string>, seq<string>, seq<string>) {
    if a.None? then ([], [], [])
    else (a.value.podAffinity, a.value.podAntiAffinity,
          if a.value.nodeAffinity.None? then [] else a.value.nodeAffinity.value.preferred)
  }

  /** Preferences and affinities between pods are kept, and every term keeps its fields and its expressions, with one
      more at their end. */
  lemma RestIsKept(a: Option<PodAffinity>, n: nat)
    ensures OtherParts(Some(Rewritten(a, n))) == OtherParts(a)
    ensures RequiredSelector(a).Some? && RequiredSelector(a).value.terms.Some? ==>
      var terms, s' := RequiredSelector(a).value.terms.value, RequiredSelector(Some(Rewritten(a, n)));
      && s'.Some? && s'.value.terms.Some? && |s'.value.terms.value| == |terms|
      && forall i :: 0 <= i < |terms| ==>
           var t' := s'.value.terms.value[i];
           t'.matchFields == terms[i].matchFields && t'.matchExpressions[..|t'.matchExpressions| - 1] == terms[i].matchExpressions
  {
  }

  /** The rewriting keeps its promise, to admit what was admitted and has enough GPUs, on every node, if and only if no
      empty selector is widened or the original affinity already admitted every node with enough GPUs. */
  lemma RewritingPromise(a: Option<PodAffinity>, n: nat)
    ensures
      (forall node :: Admits(Some(Rewritten(a, n)), node) <==> Admits(a, node) && EnoughGpus(node, n))
      <==> !Widened(a) || forall node :: EnoughGpus(node, n) ==> Admits(a, node)
  {
    forall node ensures Admits(Some(Rewritten(a, n)), node) <==> EnoughGpus(node, n) && (Admits(a, node) || Widened(a)) {
      RewrittenMeaning(a, n, node);
    }
  }

  /** The promise fails on a node exactly if the selector is widened and the node has enough GPUs but was not
      admitted. */
  lemma RewritingFails(a: Option<PodAffinity>, n: nat, node: Node)
    ensures !(Admits(Some(Rewritten(a, n)), node) <==> Admits(a, node) && EnoughGpus(node, n)) <==>
            Widened(a) && EnoughGpus(node, n) && !Admits(a, node)
  {
    RewrittenMeaning(a, n, node);
  }

  /** An affinity with an empty term admits no node, and after the rewriting a node without the label. */
  lemma EmptyTermIsWidened(n: nat)
    ensures var a := Some(PodAffinity(Some(NodeAffinity(Some(NodeSelector(Some([Term([], [])]))), [])), [], []));
      var node := Node(map[], map[]);
      !Admits(a, node) && Admits(Some(Rewritten(a, n)), node)
  {
    var a := Some(PodAffinity(Some(NodeAffinity(Some(NodeSelector(Some([Term([], [])]))), [])), [], []));
    assert Term([], []) in RequiredSelector(a).value.terms.value;
    RewrittenMeaning(a, n, Node(map[], map[]));
  }
}
