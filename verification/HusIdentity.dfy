/** What the canonical tree of a source identifies: when two trees have the same one. */
module HusIdentity {
  import opened HusAst
  import opened HusFrontEnd
  import opened Outcomes
  import opened Sorting

  // ---------------------------------------------------------------- sorting strings by themselves

  lemma GreatestLast(s: seq<string>, t: seq<string>)
    requires multiset(s) == multiset(t) && SortedBy(Itself, s) && SortedBy(Itself, t) && |s| == |t| > 0
    ensures s[|s| - 1] == t[|t| - 1]
  {
    var n := |s| - 1;
    assert s[n] in multiset(t) && t[n] in multiset(s);
    var i :| 0 <= i < |t| && t[i] == s[n];
    var j :| 0 <= j < |s| && s[j] == t[n];
    LessTotal(s[n], t[n]);
    assert i < n ==> !Less(Itself(t[n]), Itself(t[i]));
    assert j < n ==> !Less(Itself(s[n]), Itself(s[j]));
  }

  lemma {:induction false} OneOrder(s: seq<string>, t: seq<string>)
    requires multiset(s) == multiset(t) && SortedBy(Itself, s) && SortedBy(Itself, t)
    ensures s == t
    decreases |s|
  {
    SameLength(s, t);
    if s != [] {
      var n := |s| - 1;
      GreatestLast(s, t);
      SplitLast(s);
      SplitLast(t);
      SortedInit(Itself, s);
      SortedInit(Itself, t);
      hide SortedBy;
      OneOrder(s[..n], t[..n]);
    }
  }

  /** Two lists sort alike if and only if they have the same elements, as often. */
  lemma SortsAlikeIff(s: seq<string>, t: seq<string>)
    ensures SortBy(Itself, s) == SortBy(Itself, t) <==> multiset(s) == multiset(t)
  {
    SortSorted(Itself, s);
    SortSorted(Itself, t);
    hide SortBy, SortedBy;
    if multiset(s) == multiset(t) { OneOrder(SortBy(Itself, s), SortBy(Itself, t)); }
  }

  // ---------------------------------------------------------------- declarations of one name

  /** The values of the last policy with the name. */
  function LastPolicy(policies: seq<Policy>, name: string): Option<seq<string>> {
    if policies == [] then None
    else
      var p := policies[|policies| - 1];
      if p.name == name then Some(p.values) else LastPolicy(policies[..|policies| - 1], name)
  }

  function LastMetadata(metadata: seq<Metadata>, key: string): Option<(string, Scalar)> {
    if metadata == [] then None
    else
      var m := metadata[|metadata| - 1];
      if m.key == key then Some((m.value.kind, m.value.value)) else LastMetadata(metadata[..|metadata| - 1], key)
  }

  lemma {:induction false} PoliciesMean(policies: seq<Policy>, name: string)
    ensures var canonical, last := CanonicalPolicies(policies), LastPolicy(policies, name);
            if last.Some? then name in canonical && canonical[name] == SortBy(Itself, last.value)
            else name !in canonical
  {
    hide SortBy;
    if policies != [] { PoliciesMean(policies[..|policies| - 1], name); }
  }

  lemma {:induction false} MetadataMeans(metadata: seq<Metadata>, key: string)
    ensures var canonical, last := CanonicalMetadata(metadata), LastMetadata(metadata, key);
            if last.Some? then key in canonical && canonical[key] == last.value else key !in canonical
  {
    if metadata != [] { MetadataMeans(metadata[..|metadata| - 1], key); }
  }

  // ---------------------------------------------------------------- the same source structure

  predicate SameDomain(d: Domain, e: Domain) {
    (d.code, d.engine, d.name, d.enabled) == (e.code, e.engine, e.name, e.enabled)
    && multiset(d.capabilities) == multiset(e.capabilities)
  }

  predicate SameStep(s: StepDecl, t: StepDecl) { (s.code, s.action, s.approval) == (t.code, t.action, t.approval) }

  predicate SameWorkflow(v: Workflow, w: Workflow) {
    && (v.code, v.trigger, v.name, v.enabled) == (w.code, w.trigger, w.name, w.enabled) && |v.steps| == |w.steps|
    && forall k :: 0 <= k < |v.steps| ==> SameStep(v.steps[k], w.steps[k])
  }

  predicate SameValues(a: Option<seq<string>>, b: Option<seq<string>>) {
    match (a, b)
    case (Some(x), Some(y)) => multiset(x) == multiset(y)
    case (None, None) => true
    case _ => false
  }

  ghost predicate SamePolicies(p: seq<Policy>, q: seq<Policy>) {
    forall name :: SameValues(LastPolicy(p, name), LastPolicy(q, name))
  }

  ghost predicate SameMetadata(m: seq<Metadata>, n: seq<Metadata>) {
    forall key :: LastMetadata(m, key) == LastMetadata(n, key)
  }

  /** Domains and workflows in their order, capabilities and policy values in any; a policy or a metadata key that is
      given twice counts by its last. */
  ghost predicate SameStructure(m: Module, n: Module) {
    && (m.name, m.version, m.organization.code, m.organization.name)
       == (n.name, n.version, n.organization.code, n.organization.name)
    && |m.domains| == |n.domains| && (forall k :: 0 <= k < |m.domains| ==> SameDomain(m.domains[k], n.domains[k]))
    && |m.workflows| == |n.workflows|
    && (forall k :: 0 <= k < |m.workflows| ==> SameWorkflow(m.workflows[k], n.workflows[k]))
    && SamePolicies(m.policies, n.policies) && SameMetadata(m.metadata, n.metadata)
  }

  lemma SameSeqIff<T, U>(f: T -> U, s: seq<T>, t: seq<T>)
    ensures MapSeq(f, s) == MapSeq(f, t) <==> |s| == |t| && forall k :: 0 <= k < |s| ==> f(s[k]) == f(t[k])
  {
    if MapSeq(f, s) == MapSeq(f, t) {
      forall k | 0 <= k < |s| ensures f(s[k]) == f(t[k]) { assert MapSeq(f, s)[k] == MapSeq(f, t)[k]; }
    }
  }

  lemma SameDomainIff(d: Domain, e: Domain)
    ensures SortedDomain(d) == SortedDomain(e) <==> SameDomain(d, e)
  {
    SortsAlikeIff(d.capabilities, e.capabilities);
    hide SortBy;
  }

  lemma SameWorkflowIff(v: Workflow, w: Workflow)
    ensures PlainWorkflow(v) == PlainWorkflow(w) <==> SameWorkflow(v, w)
  {
    SameSeqIff(PlainStep, v.steps, w.steps);
  }

  lemma SamePoliciesIff(p: seq<Policy>, q: seq<Policy>)
    ensures CanonicalPolicies(p) == CanonicalPolicies(q) <==> SamePolicies(p, q)
  {
    hide CanonicalPolicies, SortBy, LastPolicy;
    forall name
      ensures SameValues(LastPolicy(p, name), LastPolicy(q, name)) <==>
                ((name in CanonicalPolicies(p) <==> name in CanonicalPolicies(q))
                 && (name in CanonicalPolicies(p) && name in CanonicalPolicies(q) ==>
                       CanonicalPolicies(p)[name] == CanonicalPolicies(q)[name]))
    {
      PoliciesMean(p, name);
      PoliciesMean(q, name);
      if LastPolicy(p, name).Some? && LastPolicy(q, name).Some? {
        SortsAlikeIff(LastPolicy(p, name).value, LastPolicy(q, name).value);
      }
    }
  }

  lemma SameMetadataIff(m: seq<Metadata>, n: seq<Metadata>)
    ensures CanonicalMetadata(m) == CanonicalMetadata(n) <==> SameMetadata(m, n)
  {
    hide CanonicalMetadata, LastMetadata;
    forall key
      ensures LastMetadata(m, key) == LastMetadata(n, key) <==>
                ((key in CanonicalMetadata(m) <==> key in CanonicalMetadata(n))
                 && (key in CanonicalMetadata(m) && key in CanonicalMetadata(n) ==>
                       CanonicalMetadata(m)[key] == CanonicalMetadata(n)[key]))
    {
      MetadataMeans(m, key);
      MetadataMeans(n, key);
    }
  }

  /** Main result: two trees have the same canonical tree if and only if they have the same structure, wherever their
      declarations stand in the text. */
  lemma CanonicalSameIff(m: Module, n: Module)
    ensures CanonicalAst(m) == CanonicalAst(n) <==> SameStructure(m, n)
  {
    SameSeqIff(SortedDomain, m.domains, n.domains);
    SameSeqIff(PlainWorkflow, m.workflows, n.workflows);
    SamePoliciesIff(m.policies, n.policies);
    SameMetadataIff(m.metadata, n.metadata);
    hide SortedDomain, PlainWorkflow, SameDomain, SameWorkflow, SamePolicies, SameMetadata, MapSeq, CanonicalPolicies,
         CanonicalMetadata;
    if |m.domains| == |n.domains| && |m.workflows| == |n.workflows| {
      forall k | 0 <= k < |m.domains|
        ensures SortedDomain(m.domains[k]) == SortedDomain(n.domains[k]) <==> SameDomain(m.domains[k], n.domains[k])
      {
        SameDomainIff(m.domains[k], n.domains[k]);
      }
      forall k | 0 <= k < |m.workflows|
        ensures PlainWorkflow(m.workflows[k]) == PlainWorkflow(n.workflows[k]) <==>
                  SameWorkflow(m.workflows[k], n.workflows[k])
      {
        SameWorkflowIff(m.workflows[k], n.workflows[k]);
      }
    }
  }
}
