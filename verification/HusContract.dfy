/** The contract does not depend on the order in which a specification lists things. */
module HusContract {
  import opened HusAst
  import opened HusCompiler
  import opened HusRegistry
  import opened Outcomes
  import opened Sorting

  // ---------------------------------------------------------------- acceptance, without an order

  function DomainKey(d: DomainIn): string { if d.DomainIn? then OrElse(d.code, "") else "" }

  function StepKey(s: StepIn): string { if s.StepIn? then OrElse(s.code, "") else "" }

  function WorkflowKey(w: WorkflowIn): string { if w.WorkflowIn? then OrElse(w.code, "") else "" }

  predicate DomainOk(d: DomainIn) {
    && d.DomainIn? && d.unknown == [] && !Blank(d.code)
    && d.engine.Some? && d.engine.value in ENGINES && !d.capabilities.Malformed?
    && forall c :: c in ListOf(d.capabilities) ==> c in CapabilitiesFor(d.engine.value)
  }

  ghost predicate DomainsOk(domains: seq<DomainIn>) {
    (forall d :: d in domains ==> DomainOk(d)) && DistinctKeys(DomainKey, domains)
  }

  predicate StepOk(s: StepIn) { s.StepIn? && s.unknown == [] && NamedStep(s) && ActionCodes(s.action.value) == [] }

  ghost predicate StepsOk(steps: seq<StepIn>) {
    (forall s :: s in steps ==> StepOk(s)) && DistinctKeys(StepKey, steps)
  }

  ghost predicate WorkflowOk(w: WorkflowIn) {
    w.WorkflowIn? && w.unknown == [] && !Blank(w.code) && w.steps.Given? && w.steps.value != []
    && StepsOk(w.steps.value)
  }

  ghost predicate WorkflowsOk(workflows: seq<WorkflowIn>) {
    (forall w :: w in workflows ==> WorkflowOk(w)) && DistinctKeys(WorkflowKey, workflows)
  }

  ghost predicate SpecOk(s: SpecIn) {
    && HeadDiags(s) == [] && !s.domains.Malformed? && !s.workflows.Malformed? && PolicyDiags(s) == []
    && DomainsOk(ListOf(s.domains)) && WorkflowsOk(ListOf(s.workflows))
  }

  lemma {:induction false} CapabilityCodesIff(engine: string, capabilities: seq<string>)
    ensures CapabilityCodes(engine, capabilities) == [] <==>
              forall c :: c in capabilities ==> c in CapabilitiesFor(engine)
  {
    hide CapabilitiesFor;
    if capabilities != [] {
      var n := |capabilities| - 1;
      CapabilityCodesIff(engine, capabilities[..n]);
      assert forall c :: c in capabilities <==> c in capabilities[..n] || c == capabilities[n];
    }
  }

  lemma DomainDiagsIff(d: DomainIn, seen: set<string>)
    ensures DomainDiags(d, seen) == [] <==> DomainOk(d) && DomainKey(d) !in seen
  {
    hide CapabilityCodes, CapabilitiesFor;
    if d.DomainIn? && d.capabilities.Given? {
      CapabilityCodesIff(EngineOf(d), d.capabilities.value);
      assert |Labelled("Resolver", CapabilityCodes(EngineOf(d), d.capabilities.value))|
             == |CapabilityCodes(EngineOf(d), d.capabilities.value)|;
    }
  }

  lemma {:induction false} DomainsDiagsIff(domains: seq<DomainIn>)
    ensures DomainsDiags(domains) == [] <==> DomainsOk(domains)
  {
    hide DomainDiags, DomainOk, DistinctKeys;
    if domains != [] {
      var n := |domains| - 1;
      var init, last := domains[..n], domains[n];
      assert domains == init + [last] && forall d :: d in domains <==> d in init || d == last;
      DomainsDiagsIff(init);
      DomainDiagsIff(last, DomainsIn(init));
      DistinctSnoc(DomainKey, init, last);
      if DomainsOk(init) { DomainSeenIff(init, DomainKey(last)); }
      hide DomainsIn;
    } else {
      assert DistinctKeys(DomainKey, domains) by { NothingTwice(DomainKey, domains); }
    }
  }

  lemma NothingTwice<T(!new)>(key: T -> string, s: seq<T>)
    requires s == []
    ensures DistinctKeys(key, s)
  {
  }

  lemma DomainSeenIff(domains: seq<DomainIn>, code: string)
    requires forall d :: d in domains ==> DomainOk(d)
    ensures code in DomainsIn(domains) <==> exists d :: d in domains && DomainKey(d) == code
  {
    hide CapabilitiesFor;
  }

  lemma StepDiagsIff(s: StepIn, seen: set<string>)
    ensures StepDiags(s, seen) == [] <==> StepOk(s) && StepKey(s) !in seen
  {
    hide ActionCodes;
    if s.StepIn? && !Blank(s.action) {
      assert |Labelled("Resolver", ActionCodes(s.action.value))| == |ActionCodes(s.action.value)|;
    }
  }

  lemma StepSeenIff(steps: seq<StepIn>, code: string)
    requires forall s :: s in steps ==> StepOk(s)
    ensures code in StepsIn(steps) <==> exists s :: s in steps && StepKey(s) == code
  {
    hide ActionCodes;
  }

  lemma {:induction false} StepsDiagsIff(steps: seq<StepIn>)
    ensures StepsDiags(steps) == [] <==> StepsOk(steps)
  {
    hide StepDiags, StepOk, DistinctKeys;
    if steps != [] {
      var n := |steps| - 1;
      var init, last := steps[..n], steps[n];
      assert steps == init + [last] && forall s :: s in steps <==> s in init || s == last;
      StepsDiagsIff(init);
      StepDiagsIff(last, StepsIn(init));
      DistinctSnoc(StepKey, init, last);
      if StepsOk(init) { StepSeenIff(init, StepKey(last)); }
      hide StepsIn;
    } else {
      NothingTwice(StepKey, steps);
    }
  }

  lemma WorkflowDiagsIff(w: WorkflowIn, seen: set<string>)
    ensures WorkflowDiags(w, seen) == [] <==> WorkflowOk(w) && WorkflowKey(w) !in seen
  {
    hide StepsDiags, StepsOk;
    if w.WorkflowIn? && w.steps.Given? { StepsDiagsIff(w.steps.value); }
  }

  lemma WorkflowSeenIff(workflows: seq<WorkflowIn>, code: string)
    requires forall w :: w in workflows ==> WorkflowOk(w)
    ensures code in WorkflowsIn(workflows) <==> exists w :: w in workflows && WorkflowKey(w) == code
  {
    hide StepsOk;
  }

  lemma {:induction false} WorkflowsDiagsIff(workflows: seq<WorkflowIn>)
    ensures WorkflowsDiags(workflows) == [] <==> WorkflowsOk(workflows)
  {
    hide WorkflowDiags, WorkflowOk, DistinctKeys;
    if workflows != [] {
      var n := |workflows| - 1;
      var init, last := workflows[..n], workflows[n];
      assert workflows == init + [last] && forall w :: w in workflows <==> w in init || w == last;
      WorkflowsDiagsIff(init);
      WorkflowDiagsIff(last, WorkflowsIn(init));
      DistinctSnoc(WorkflowKey, init, last);
      if WorkflowsOk(init) { WorkflowSeenIff(init, WorkflowKey(last)); }
      hide WorkflowsIn;
    } else {
      NothingTwice(WorkflowKey, workflows);
    }
  }

  /** A specification is accepted exactly when each of its parts is well formed on its own and codes do
      not repeat. */
  lemma AcceptedIff(s: SpecIn)
    ensures CompileSpec(s).Ok? <==> SpecOk(s)
  {
    hide HeadDiags, PolicyDiags, DomainsDiags, WorkflowsDiags, DomainsOk, WorkflowsOk, ContractOf;
    DomainsDiagsIff(ListOf(s.domains));
    WorkflowsDiagsIff(ListOf(s.workflows));
  }

  // ---------------------------------------------------------------- the order does not matter

  /** The domains with their capabilities as sets. */
  function Normal(d: DomainIn): DomainIn {
    if d.DomainIn? && d.capabilities.Given? then d.(capabilities := Given(SortedSet(d.capabilities.value))) else d
  }

  /** The same specification, but for the order of domains and workflows, and the order and repetition
      of capabilities. */
  ghost predicate Rearranged(s: SpecIn, t: SpecIn) {
    && s.unknown == t.unknown && s.version == t.version && s.organization == t.organization
    && s.policies == t.policies && s.metadata == t.metadata
    && s.domains.Malformed? == t.domains.Malformed? && s.workflows.Malformed? == t.workflows.Malformed?
    && multiset(MapSeq(Normal, ListOf(s.domains))) == multiset(MapSeq(Normal, ListOf(t.domains)))
    && multiset(ListOf(s.workflows)) == multiset(ListOf(t.workflows))
  }

  lemma NormalOk(d: DomainIn)
    ensures DomainOk(Normal(d)) <==> DomainOk(d)
    ensures DomainKey(Normal(d)) == DomainKey(d)
    ensures ResolveDomain(Normal(d)) == ResolveDomain(d)
  {
    if d.DomainIn? && d.capabilities.Given? {
      SortedSetIgnoresOrder(SortedSet(d.capabilities.value), d.capabilities.value);
    }
    hide SortedSet, CapabilitiesFor;
  }

  lemma NormalDomainsOk(domains: seq<DomainIn>)
    ensures DomainsOk(MapSeq(Normal, domains)) <==> DomainsOk(domains)
  {
    hide DomainOk, DomainKey, Normal;
    var normal := MapSeq(Normal, domains);
    forall i | 0 <= i < |domains|
      ensures (DomainOk(normal[i]) <==> DomainOk(domains[i])) && DomainKey(normal[i]) == DomainKey(domains[i])
    {
      NormalOk(domains[i]);
    }
    assert forall i :: 0 <= i < |domains| ==> normal[i] in normal && domains[i] in domains;
  }

  lemma OkIgnoresOrder<T(!new)>(key: T -> string, ok: T -> bool, s: seq<T>, t: seq<T>)
    requires multiset(s) == multiset(t)
    ensures (forall x :: x in s ==> ok(x)) <==> (forall x :: x in t ==> ok(x))
    ensures DistinctKeys(key, s) <==> DistinctKeys(key, t)
  {
    assert forall x :: x in s <==> x in multiset(s);
    assert forall x :: x in t <==> x in multiset(t);
    if DistinctKeys(key, s) { DistinctTransfers(key, s, t); }
    if DistinctKeys(key, t) { DistinctTransfers(key, t, s); }
  }

  lemma DomainsOkIgnoresOrder(s: seq<DomainIn>, t: seq<DomainIn>)
    requires multiset(MapSeq(Normal, s)) == multiset(MapSeq(Normal, t))
    ensures DomainsOk(s) <==> DomainsOk(t)
  {
    hide DomainOk, DomainKey, Normal, DistinctKeys;
    NormalDomainsOk(s);
    NormalDomainsOk(t);
    OkIgnoresOrder(DomainKey, DomainOk, MapSeq(Normal, s), MapSeq(Normal, t));
  }

  lemma WorkflowsOkIgnoresOrder(s: seq<WorkflowIn>, t: seq<WorkflowIn>)
    requires multiset(s) == multiset(t)
    ensures WorkflowsOk(s) <==> WorkflowsOk(t)
  {
    hide WorkflowOk, WorkflowKey, DistinctKeys;
    OkIgnoresOrder(WorkflowKey, WorkflowOk, s, t);
  }

  lemma MapConcat<T(!new), U(!new)>(f: T -> U, a: seq<T>, b: seq<T>)
    ensures MapSeq(f, a + b) == MapSeq(f, a) + MapSeq(f, b)
  {
  }

  /** Taking one element out of a sequence and out of its image. */
  lemma MapWithout<T(!new), U(!new)>(f: T -> U, s: seq<T>, i: nat)
    requires i < |s|
    ensures multiset(s[..i] + s[i + 1..]) == multiset(s) - multiset{s[i]}
    ensures multiset(MapSeq(f, s)) == multiset(MapSeq(f, s[..i] + s[i + 1..])) + multiset{f(s[i])}
  {
    var a, x, b := s[..i], s[i], s[i + 1..];
    assert s == a + ([x] + b);
    MapConcat(f, a, [x] + b);
    MapConcat(f, [x], b);
    MapConcat(f, a, b);
    assert MapSeq(f, [x]) == [f(x)];
  }

  lemma {:induction false} MapMultiset<T(!new), U(!new)>(f: T -> U, s: seq<T>, t: seq<T>)
    requires multiset(s) == multiset(t)
    ensures multiset(MapSeq(f, s)) == multiset(MapSeq(f, t))
    decreases |s|
  {
    SameLength(s, t);
    hide MapSeq;
    if s != [] {
      assert s[0] in multiset(t);
      var i :| 0 <= i < |t| && t[i] == s[0];
      MapWithout(f, s, 0);
      MapWithout(f, t, i);
      MapMultiset(f, s[..0] + s[1..], t[..i] + t[i + 1..]);
    } else {
      assert s == t;
    }
  }

  lemma DistinctMapped<T(!new), U(!new)>(key: T -> string, f: T -> U, outKey: U -> string, s: seq<T>)
    requires DistinctKeys(key, s) && forall x :: x in s ==> outKey(f(x)) == key(x)
    ensures DistinctKeys(outKey, MapSeq(f, s))
  {
  }

  // ---------------------------------------------------------------- the contract

  lemma ResolvedDomainKey(d: DomainIn)
    ensures DomainCode(ResolveDomain(d)) == DomainKey(d)
  {
  }

  lemma ResolvedWorkflowKey(w: WorkflowIn)
    ensures WorkflowCode(ResolveWorkflow(w)) == WorkflowKey(w) && PlanCode(PlanOf(ResolveWorkflow(w))) == WorkflowKey(w)
  {
  }

  lemma DomainsOut(s: seq<DomainIn>, t: seq<DomainIn>)
    requires multiset(MapSeq(Normal, s)) == multiset(MapSeq(Normal, t)) && DomainsOk(s)
    ensures SortBy(DomainCode, MapSeq(ResolveDomain, s)) == SortBy(DomainCode, MapSeq(ResolveDomain, t))
  {
    hide DomainOk, Normal, ResolveDomain, DomainKey, DomainCode, DistinctKeys;
    NormalResolves(s);
    NormalResolves(t);
    MapMultiset(ResolveDomain, MapSeq(Normal, s), MapSeq(Normal, t));
    forall d ensures DomainCode(ResolveDomain(d)) == DomainKey(d) { ResolvedDomainKey(d); }
    DistinctMapped(DomainKey, ResolveDomain, DomainCode, s);
    SortIgnoresOrder(DomainCode, MapSeq(ResolveDomain, s), MapSeq(ResolveDomain, t));
  }

  lemma NormalResolves(domains: seq<DomainIn>)
    ensures MapSeq(ResolveDomain, MapSeq(Normal, domains)) == MapSeq(ResolveDomain, domains)
  {
    forall d ensures ResolveDomain(Normal(d)) == ResolveDomain(d) { NormalOk(d); }
    hide ResolveDomain, Normal;
  }

  lemma WorkflowsOut(s: seq<WorkflowIn>, t: seq<WorkflowIn>)
    requires multiset(s) == multiset(t) && WorkflowsOk(s)
    ensures SortBy(WorkflowCode, MapSeq(ResolveWorkflow, s)) == SortBy(WorkflowCode, MapSeq(ResolveWorkflow, t))
    ensures SortBy(PlanCode, MapSeq(PlanOf, MapSeq(ResolveWorkflow, s)))
            == SortBy(PlanCode, MapSeq(PlanOf, MapSeq(ResolveWorkflow, t)))
  {
    hide WorkflowOk, ResolveWorkflow, PlanOf, WorkflowKey, WorkflowCode, PlanCode, DistinctKeys;
    var rs, rt := MapSeq(ResolveWorkflow, s), MapSeq(ResolveWorkflow, t);
    forall w
      ensures WorkflowCode(ResolveWorkflow(w)) == WorkflowKey(w)
      ensures PlanCode(PlanOf(ResolveWorkflow(w))) == WorkflowKey(w)
    {
      ResolvedWorkflowKey(w);
    }
    MapMultiset(ResolveWorkflow, s, t);
    DistinctMapped(WorkflowKey, ResolveWorkflow, WorkflowCode, s);
    SortIgnoresOrder(WorkflowCode, rs, rt);
    MapMultiset(PlanOf, rs, rt);
    assert forall r :: r in rs ==> PlanCode(PlanOf(r)) == WorkflowCode(r);
    DistinctMapped(WorkflowCode, PlanOf, PlanCode, rs);
    SortIgnoresOrder(PlanCode, MapSeq(PlanOf, rs), MapSeq(PlanOf, rt));
  }

  /** Main result: permuting domains or workflows, and permuting or repeating capabilities, changes
      neither acceptance nor the contract, and so not its hash. */
  lemma ContractIgnoresOrder(s: SpecIn, t: SpecIn)
    requires Rearranged(s, t)
    ensures CompileSpec(s).Ok? <==> CompileSpec(t).Ok?
    ensures CompileSpec(s).Ok? ==> CompileSpec(s) == CompileSpec(t)
  {
    AcceptedIff(s);
    AcceptedIff(t);
    DomainsOkIgnoresOrder(ListOf(s.domains), ListOf(t.domains));
    WorkflowsOkIgnoresOrder(ListOf(s.workflows), ListOf(t.workflows));
    assert SpecOk(s) <==> SpecOk(t);
    hide SpecDiags, DomainsOk, WorkflowsOk, HeadDiags, PolicyDiags, Bindings;
    if SpecOk(s) {
      DomainsOut(ListOf(s.domains), ListOf(t.domains));
      WorkflowsOut(ListOf(s.workflows), ListOf(t.workflows));
    }
  }

  // ---------------------------------------------------------------- the order of the bindings

  predicate BindingBefore(a: (string, string), b: (string, string)) {
    Less(a.0, b.0) || (a.0 == b.0 && Less(a.1, b.1))
  }

  lemma {:induction false} BindingDomains(domains: seq<DomainOut>)
    ensures forall b :: b in Bindings(domains) ==> exists d :: d in domains && d.code == b.0
  {
    if domains != [] {
      var n := |domains| - 1;
      BindingDomains(domains[..n]);
      assert domains[n] in domains;
      forall b | b in Bindings(domains) ensures exists d :: d in domains && d.code == b.0 {
        if b in Bindings(domains[..n]) {
          var d :| d in domains[..n] && d.code == b.0;
          assert d in domains;
        }
      }
    }
  }

  /** The bindings of the sorted domains are strictly ascending, so that sorting them changes nothing. */
  lemma {:induction false} BindingsAscend(domains: seq<DomainOut>)
    requires forall i, j :: 0 <= i < j < |domains| ==> Less(domains[i].code, domains[j].code)
    requires forall d :: d in domains ==> Ascending(d.capabilities)
    ensures forall i, j :: 0 <= i < j < |Bindings(domains)| ==>
              BindingBefore(Bindings(domains)[i], Bindings(domains)[j])
  {
    if domains != [] {
      var n := |domains| - 1;
      var init, last := Bindings(domains[..n]), BindingsOf(domains[n]);
      BindingsAscend(domains[..n]);
      BindingDomains(domains[..n]);
      assert domains[n] in domains;
      hide Ascending, Less;
      forall i, j | 0 <= i < j < |init + last| ensures BindingBefore((init + last)[i], (init + last)[j]) {
        if i < |init| <= j {
          assert init[i] in init;
          var d :| d in domains[..n] && d.code == init[i].0;
          var k :| 0 <= k < n && domains[k] == d;
        } else if |init| <= i {
          AscendingAt(domains[n].capabilities, i - |init|, j - |init|);
        }
      }
    }
  }

  lemma AscendingAt(s: seq<string>, i: nat, j: nat)
    requires Ascending(s) && i < j < |s|
    ensures Less(s[i], s[j])
  {
  }

  /** The bindings of an accepted specification are ascending. */
  lemma ContractBindingsAscend(s: SpecIn)
    requires CompileSpec(s).Ok?
    ensures var b := CompileSpec(s).value.bindings;
            forall i, j :: 0 <= i < j < |b| ==> BindingBefore(b[i], b[j])
  {
    AcceptedIff(s);
    var ins := ListOf(s.domains);
    var outs := MapSeq(ResolveDomain, ins);
    var domains := SortBy(DomainCode, outs);
    forall d ensures DomainCode(ResolveDomain(d)) == DomainKey(d) { ResolvedDomainKey(d); }
    forall d | d in domains ensures Ascending(d.capabilities) {
      assert d in multiset(domains);
      assert d in outs;
      var i :| 0 <= i < |outs| && outs[i] == d;
      CapabilitiesAscend(ins[i]);
    }
    assert DomainsOk(ins);
    assert CompileSpec(s).value.bindings == Bindings(domains);
    hide SpecDiags, SpecOk, ResolveDomain, DomainKey, Bindings, Ascending, DistinctKeys, SortedBy;
    DistinctMapped(DomainKey, ResolveDomain, DomainCode, ins) by { assert DistinctKeys(DomainKey, ins); }
    SortSorted(DomainCode, outs);
    DistinctTransfers(DomainCode, outs, domains);
    StrictlySorted(domains);
    BindingsAscend(domains);
  }

  lemma CapabilitiesAscend(d: DomainIn)
    ensures Ascending(ResolveDomain(d).capabilities)
  {
    if d.DomainIn? { SortedSetAscending(ListOf(d.capabilities)); }
  }

  lemma StrictlySorted(domains: seq<DomainOut>)
    requires SortedBy(DomainCode, domains) && DistinctKeys(DomainCode, domains)
    ensures forall i, j :: 0 <= i < j < |domains| ==> Less(domains[i].code, domains[j].code)
  {
    forall i, j | 0 <= i < j < |domains| ensures Less(domains[i].code, domains[j].code) {
      assert !Less(DomainCode(domains[j]), DomainCode(domains[i])) && DomainCode(domains[i]) != DomainCode(domains[j]);
      LessTotal(domains[i].code, domains[j].code);
    }
  }
}
