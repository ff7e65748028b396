/** What compiling a tree yields, field by field, in terms of the tree alone. */
module HusMeaning {
  import opened HusAgreement
  import opened HusAst
  import opened HusCompiler
  import opened HusContract
  import opened HusPlanAgreement
  import opened HusPlanner
  import opened HusRegistry
  import opened Outcomes
  import opened Sorting

  // ---------------------------------------------------------------- actions

  /** An action is its engine, which has no dot, and its capability. */
  predicate Named(action: string, a: Action) { action == a.engine + "." + a.capability && '.' !in a.engine }

  /** The capabilities that only read. */
  predicate Reads(capability: string) {
    capability == "read" || (|capability| >= 5 && capability[|capability| - 5..] == ".read")
  }

  lemma {:induction false} NoDotBefore(s: string)
    ensures '.' !in s[..DotAt(s)]
  {
    if s != "" && s[0] != '.' {
      NoDotBefore(s[1..]);
      assert s[..DotAt(s)] == [s[0]] + s[1..][..DotAt(s[1..])];
    }
  }

  lemma ActionIsNamed(action: string)
    requires '.' in action
    ensures Named(action, ActionOf(action)) && (IsRead(ActionOf(action)) <==> Reads(ActionOf(action).capability))
  {
    var k := DotAt(action);
    NoDotBefore(action);
    assert action == action[..k] + [action[k]] + action[k + 1..];
    assert |".read"| == 5;
  }

  /** Splitting is the only way to name an action. */
  lemma NamedOnce(action: string, a: Action, b: Action)
    requires Named(action, a) && Named(action, b)
    ensures a == b
  {
    DotAfter(a.engine, a.capability);
    DotAfter(b.engine, b.capability);
    assert action[|a.engine| + 1..] == a.capability && action[|b.engine| + 1..] == b.capability;
    assert action[..|a.engine|] == a.engine && action[..|b.engine|] == b.engine;
  }

  // ---------------------------------------------------------------- the steps of the plan

  /** The IR step of a declared step, after the one before it in its workflow. */
  predicate StepMeans(w: Workflow, k: nat, t: IRStep)
    requires k < |w.steps|
  {
    var s, only := w.steps[k], Reads(t.action.capability);
    && t.id == w.code + "." + s.code && Named(s.action, t.action)
    && t.dependsOn == (if k == 0 then [] else [w.code + "." + w.steps[k - 1].code])
    && (t.approval <==> s.approval || !only)
    && (t.idempotent <==> !only)
    && t.risk == (if only then "read" else if t.action.capability in {"moderate", "admin"} then t.action.capability
                  else "mutation")
    && t.timeout == 30 && t.retries == 0
  }

  predicate WorkflowMeans(w: Workflow, x: IRWorkflow) {
    && x.code == w.code && x.trigger == w.trigger && |x.steps| == |w.steps|
    && forall k :: 0 <= k < |w.steps| ==> StepMeans(w, k, x.steps[k])
  }

  lemma StepIsMeant(w: Workflow, ir: IRWorkflow, k: nat)
    requires BuiltAs(w, ir) && k < |w.steps| && '.' in w.steps[k].action
    ensures StepMeans(w, k, ir.steps[k])
  {
    var s := w.steps[k];
    assert ir.steps[k] == IRStepOf(w.code, s, PreviousId(w.code, w.steps[..k]));
    ActionIsNamed(s.action);
    hide ActionOf, IsRead, Reads, Named;
    if k > 0 {
      assert w.steps[..k][|w.steps[..k]| - 1] == w.steps[k - 1];
      assert PreviousId(w.code, w.steps[..k]) == Some(w.code + "." + w.steps[k - 1].code);
    }
    assert ir.steps[k].action == ActionOf(s.action);
    RiskIsRead(ActionOf(s.action));
  }

  /** An accepted workflow has a dot in each of its actions. */
  lemma ActionsHaveDots(m: Module)
    requires AstCodes(m) == []
    ensures forall w, s :: w in m.workflows && s in w.steps ==> '.' in s.action
  {
    assert WorkflowsCodes(m.workflows) == [] by { hide DomainsCodes, PoliciesCodes, HeadCodes, WorkflowsCodes; }
    WorkflowsChecked(m.workflows);
    forall w, s | w in m.workflows && s in w.steps ensures '.' in s.action {
      StepsChecked(w.steps);
      assert ActionCodes(s.action) == [];
    }
  }

  lemma WorkflowIsMeant(w: Workflow, ir: IRWorkflow)
    requires BuiltAs(w, ir) && forall s :: s in w.steps ==> '.' in s.action
    ensures WorkflowMeans(w, ir)
  {
    forall k | 0 <= k < |w.steps| ensures StepMeans(w, k, ir.steps[k]) {
      StepIsMeant(w, ir, k);
    }
    hide StepMeans, BuiltFrom;
  }

  // ---------------------------------------------------------------- the whole plan

  /** Strictly ascending keys. */
  ghost predicate Ascends<T(!new)>(key: T -> string, s: seq<T>) {
    forall i, j :: 0 <= i < j < |s| ==> Less(key(s[i]), key(s[j]))
  }

  lemma SortAscends<T(!new)>(key: T -> string, s: seq<T>)
    requires DistinctKeys(key, s)
    ensures Ascends(key, SortBy(key, s)) && |SortBy(key, s)| == |s|
    ensures forall x :: x in SortBy(key, s) <==> x in s
  {
    var sorted := SortBy(key, s);
    SortSorted(key, s);
    DistinctTransfers(key, s, sorted);
    SameLength(s, sorted);
    forall i, j | 0 <= i < j < |sorted| ensures Less(key(sorted[i]), key(sorted[j])) {
      assert !Less(key(sorted[j]), key(sorted[i])) && key(sorted[i]) != key(sorted[j]);
      LessTotal(key(sorted[i]), key(sorted[j]));
    }
    assert forall x :: x in sorted <==> x in multiset(sorted);
    assert forall x :: x in s <==> x in multiset(s);
  }

  function IrCode(w: IRWorkflow): string { w.code }

  /** Main result: the plan of a compiled tree holds, in the order of their codes, exactly the declared workflows,
      and each of their steps means what it declares. */
  lemma PlanMeans(m: Module)
    requires ParserBuilt(m) && CompileAst(m).Ok?
    ensures var ir := CompileAst(m).value.ir;
            && |ir.workflows| == |m.workflows| && Ascends(IrCode, ir.workflows)
            && (forall w :: w in m.workflows ==> exists x :: x in ir.workflows && WorkflowMeans(w, x))
            && (forall x :: x in ir.workflows ==> exists w :: w in m.workflows && WorkflowMeans(w, x))
  {
    hide *;
    CompiledParts(m);
    BuiltIr(m);
    ActionsHaveDots(m);
    CodesDiffer(m);
    SortAscends(SourceCode, m.workflows);
    var ir, sorted := CompileAst(m).value.ir, SortBy(SourceCode, m.workflows);
    forall i | 0 <= i < |sorted|
      ensures WorkflowMeans(sorted[i], ir.workflows[i]) && IrCode(ir.workflows[i]) == SourceCode(sorted[i])
    {
      assert sorted[i] in m.workflows;
      WorkflowIsMeant(sorted[i], ir.workflows[i]);
      SameCode(sorted[i], ir.workflows[i]);
    }
    AscendsAlike(sorted, ir.workflows);
    forall w | w in m.workflows ensures exists x :: x in ir.workflows && WorkflowMeans(w, x) {
      var i :| 0 <= i < |sorted| && sorted[i] == w;
      assert ir.workflows[i] in ir.workflows;
    }
    forall x | x in ir.workflows ensures exists w :: w in m.workflows && WorkflowMeans(w, x) {
      var i :| 0 <= i < |ir.workflows| && ir.workflows[i] == x;
      assert sorted[i] in m.workflows;
    }
  }

  lemma SameCode(w: Workflow, x: IRWorkflow)
    requires WorkflowMeans(w, x)
    ensures IrCode(x) == SourceCode(w)
  {
  }

  lemma AscendsAlike(sorted: seq<Workflow>, irs: seq<IRWorkflow>)
    requires |sorted| == |irs| && Ascends(SourceCode, sorted)
    requires forall i :: 0 <= i < |irs| ==> IrCode(irs[i]) == SourceCode(sorted[i])
    ensures Ascends(IrCode, irs)
  {
  }

  lemma CodesDiffer(m: Module)
    requires AstCodes(m) == []
    ensures DistinctKeys(SourceCode, m.workflows)
  {
    assert WorkflowsCodes(m.workflows) == [] by { hide DomainsCodes, PoliciesCodes, HeadCodes, WorkflowsCodes; }
    WorkflowCodesDistinct(m.workflows);
  }

  lemma StepIsGuarded(w: Workflow, x: IRWorkflow, t: IRStep)
    requires WorkflowMeans(w, x) && t in x.steps
    ensures !Reads(t.action.capability) ==> t.approval && t.idempotent && t.risk != "read"
    ensures t.risk == "read" ==> Reads(t.action.capability)
  {
    hide Reads, Named;
    var k :| 0 <= k < |x.steps| && x.steps[k] == t;
    assert StepMeans(w, k, t);
    assert |"read"| == 4 && |"moderate"| == 8 && |"admin"| == 5 && |"mutation"| == 8;
  }

  /** The plan's safety property: no step of a compiled plan changes anything without approval and idempotency. */
  lemma MutationsAreGuarded(m: Module, x: IRWorkflow, t: IRStep)
    requires ParserBuilt(m) && CompileAst(m).Ok? && x in CompileAst(m).value.ir.workflows && t in x.steps
    ensures !Reads(t.action.capability) ==> t.approval && t.idempotent && t.risk != "read"
    ensures t.risk == "read" ==> Reads(t.action.capability)
  {
    hide *;
    PlanMeans(m);
    var w :| w in m.workflows && WorkflowMeans(w, x);
    StepIsGuarded(w, x, t);
  }

  /** The capabilities that the plan lists are those its declared steps name. */
  lemma PlanCapabilities(m: Module, a: Action)
    requires ParserBuilt(m) && CompileAst(m).Ok?
    ensures CompileAst(m).value.ir.language == m.version
    ensures a in CompileAst(m).value.ir.capabilities <==>
              exists w, s :: w in m.workflows && s in w.steps && Named(s.action, a)
  {
    hide *;
    PlanMeans(m);
    PlanParts(m);
    ListedIffNamed(m.workflows, CompileAst(m).value.ir.workflows, a);
  }

  lemma ListedIffNamed(workflows: seq<Workflow>, irs: seq<IRWorkflow>, a: Action)
    requires forall w :: w in workflows ==> exists x :: x in irs && WorkflowMeans(w, x)
    requires forall x :: x in irs ==> exists w :: w in workflows && WorkflowMeans(w, x)
    ensures a in ActionsOf(irs) <==> exists w, s :: w in workflows && s in w.steps && Named(s.action, a)
  {
    hide *;
    if a in ActionsOf(irs) {
      var x, t := ActionIsListed(irs, a);
      var w :| w in workflows && WorkflowMeans(w, x);
      var s := StepIsNamed(w, x, t);
    }
    if w, s :| w in workflows && s in w.steps && Named(s.action, a) {
      var x :| x in irs && WorkflowMeans(w, x);
      var t := NameIsStep(w, x, s);
      NamedOnce(s.action, a, t.action);
      StepIsListed(irs, x, t);
    }
  }

  lemma PlanParts(m: Module)
    requires CompileAst(m).Ok?
    ensures CompileAst(m).value.ir.language == m.version
    ensures CompileAst(m).value.ir.capabilities == ActionsOf(CompileAst(m).value.ir.workflows)
  {
    hide CompileAst, BuildWorkflows, ActionsOf, SortBy, AstCodes;
    CompiledParts(m);
  }

  lemma ActionIsListed(workflows: seq<IRWorkflow>, a: Action) returns (x: IRWorkflow, t: IRStep)
    requires a in ActionsOf(workflows)
    ensures x in workflows && t in x.steps && t.action == a
  {
    x, t :| x in workflows && t in x.steps && t.action == a;
  }

  lemma StepIsListed(workflows: seq<IRWorkflow>, x: IRWorkflow, t: IRStep)
    requires x in workflows && t in x.steps
    ensures t.action in ActionsOf(workflows)
  {
  }

  lemma StepIsNamed(w: Workflow, x: IRWorkflow, t: IRStep) returns (s: StepDecl)
    requires WorkflowMeans(w, x) && t in x.steps
    ensures s in w.steps && Named(s.action, t.action)
  {
    hide Named, Reads;
    var k :| 0 <= k < |x.steps| && x.steps[k] == t;
    assert StepMeans(w, k, t);
    s := w.steps[k];
  }

  lemma NameIsStep(w: Workflow, x: IRWorkflow, s: StepDecl) returns (t: IRStep)
    requires WorkflowMeans(w, x) && s in w.steps
    ensures t in x.steps && Named(s.action, t.action)
  {
    hide Named, Reads;
    var k :| 0 <= k < |w.steps| && w.steps[k] == s;
    assert StepMeans(w, k, x.steps[k]);
    t := x.steps[k];
  }

  // ---------------------------------------------------------------- the contract

  /** What a contract says of a declared domain; without a name of its own it carries its code. */
  ghost predicate DomainMeans(d: Domain, x: DomainOut) {
    && x.code == d.code && x.engine == d.engine && x.enabled == d.enabled
    && x.name == (if d.name.Some? && d.name.value != "" then d.name.value else d.code)
    && Ascending(x.capabilities) && forall c :: c in x.capabilities <==> c in d.capabilities
  }

  predicate SameHead(w: Workflow, code: string, name: string, trigger: Option<string>, enabled: bool) {
    && code == w.code && trigger == Some(w.trigger) && enabled == w.enabled
    && name == (if w.name.Some? && w.name.value != "" then w.name.value else w.code)
  }

  /** What a contract says of a declared workflow, and the execution plan it carries for it. */
  predicate ContractWorkflow(w: Workflow, x: WorkflowOut) {
    && SameHead(w, x.code, x.name, x.trigger, x.enabled) && |x.steps| == |w.steps|
    && forall k :: 0 <= k < |w.steps| ==> x.steps[k] == StepOut(w.steps[k].code, w.steps[k].action, w.steps[k].approval)
  }

  predicate ContractPlan(w: Workflow, x: PlanWorkflow) {
    && SameHead(w, x.code, x.name, x.trigger, x.enabled) && |x.steps| == |w.steps|
    && forall k :: 0 <= k < |w.steps| ==>
         var only := Reads(x.steps[k].action.capability);
         && x.steps[k].id == w.code + "." + w.steps[k].code && Named(w.steps[k].action, x.steps[k].action)
         && x.steps[k].read == only && x.steps[k].idempotent == !only
  }

  function DomainFor(d: Domain): DomainOut { ResolveDomain(LowerDomain(d)) }

  function WorkflowFor(w: Workflow): WorkflowOut { ResolveWorkflow(LowerWorkflow(w)) }

  lemma DomainIsMeant(d: Domain)
    ensures DomainMeans(d, DomainFor(d)) && DomainCode(DomainFor(d)) == d.code
  {
    SortedSetAscending(d.capabilities);
    hide SortedSet;
  }

  lemma WorkflowIsContracted(w: Workflow)
    requires forall s :: s in w.steps ==> '.' in s.action
    ensures ContractWorkflow(w, WorkflowFor(w)) && ContractPlan(w, PlanFor(w))
  {
    forall k | 0 <= k < |w.steps|
      ensures PlanFor(w).steps[k] == PlanStepOf(w.code, ResolveStep(LowerStep(w.steps[k])))
      ensures Named(w.steps[k].action, ActionOf(w.steps[k].action))
      ensures IsRead(ActionOf(w.steps[k].action)) <==> Reads(ActionOf(w.steps[k].action).capability)
    {
      ActionIsNamed(w.steps[k].action);
    }
    hide ActionOf, IsRead, Reads, Named;
  }

  /** Sorting the images of distinct elements. */
  lemma SortedImage<T(!new), U(!new)>(f: T -> U, inKey: T -> string, outKey: U -> string, s: seq<T>)
    requires DistinctKeys(inKey, s) && forall x :: outKey(f(x)) == inKey(x)
    ensures var r := SortBy(outKey, MapSeq(f, s));
            && |r| == |s| && Ascends(outKey, r) && (forall x :: x in s ==> f(x) in r)
            && (forall y :: y in r ==> exists x :: x in s && y == f(x))
  {
    var image := MapSeq(f, s);
    DistinctMapped(inKey, f, outKey, s);
    SortAscends(outKey, image);
    forall x | x in s ensures f(x) in image {
      var i :| 0 <= i < |s| && s[i] == x;
      assert image[i] == f(x);
    }
  }

  function CodeOf(d: Domain): string { d.code }

  /** Codes of an accepted tree do not repeat. */
  lemma DomainCodesDiffer(m: Module)
    requires ParserBuilt(m) && AstCodes(m) == []
    ensures DistinctKeys(CodeOf, m.domains)
  {
    var ins := MapSeq(LowerDomain, m.domains);
    ValidatorsAgree(m);
    AcceptedIff(AstToSpec(m));
    assert DomainsOk(ins) by { hide DomainOk, DistinctKeys, HeadDiags, PolicyDiags, WorkflowsOk; }
    hide *;
    DistinctIns(m, ins);
  }

  lemma DistinctIns(m: Module, ins: seq<DomainIn>)
    requires ins == MapSeq(LowerDomain, m.domains) && DomainsOk(ins)
    ensures DistinctKeys(CodeOf, m.domains)
  {
    forall i, j | 0 <= i < j < |m.domains| ensures CodeOf(m.domains[i]) != CodeOf(m.domains[j]) {
      assert DomainKey(ins[i]) == m.domains[i].code && DomainKey(ins[j]) == m.domains[j].code;
    }
    hide DomainOk;
  }

  /** The lists of a contract, by what they are made of. */
  lemma ContractParts(m: Module)
    ensures var c := ContractOf(AstToSpec(m));
            && c.domains == SortBy(DomainCode, MapSeq(DomainFor, m.domains))
            && c.workflows == SortBy(WorkflowCode, MapSeq(WorkflowFor, m.workflows))
            && c.orgCode == m.organization.code && c.orgName == m.organization.name
            && c.policies == LowerPolicies(m.policies) && c.metadata == LowerMetadata(m.metadata)
            && c.bindings == Bindings(c.domains)
  {
    hide ResolveDomain, LowerDomain, ResolveWorkflow, LowerWorkflow, PlanOf, SortBy, Bindings, LowerPolicies,
         LowerMetadata, MapSeq;
    MapTwice(LowerDomain, ResolveDomain, DomainFor, m.domains);
    MapTwice(LowerWorkflow, ResolveWorkflow, WorkflowFor, m.workflows);
  }

  lemma MapTwice<T(!new), U(!new), V(!new)>(f: T -> U, g: U -> V, h: T -> V, s: seq<T>)
    requires forall x :: h(x) == g(f(x))
    ensures MapSeq(g, MapSeq(f, s)) == MapSeq(h, s)
  {
  }

  /** Main result: the contract of a compiled tree holds exactly its declared domains and workflows, in the order of
      their codes, each with its own fields, and an execution plan of the same workflows. */
  lemma ContractMeans(m: Module)
    requires ParserBuilt(m) && CompileAst(m).Ok?
    ensures var c := CompileAst(m).value.contract;
            && c.orgCode == m.organization.code && c.orgName == m.organization.name
            && |c.domains| == |m.domains| && Ascends(DomainCode, c.domains)
            && (forall d :: d in m.domains ==> exists x :: x in c.domains && DomainMeans(d, x))
            && (forall x :: x in c.domains ==> exists d :: d in m.domains && DomainMeans(d, x))
            && |c.workflows| == |c.plan| == |m.workflows|
            && Ascends(WorkflowCode, c.workflows) && Ascends(PlanCode, c.plan)
            && (forall w :: w in m.workflows ==>
                  && (exists x :: x in c.workflows && ContractWorkflow(w, x))
                  && (exists y :: y in c.plan && ContractPlan(w, y)))
            && (forall x :: x in c.workflows ==> exists w :: w in m.workflows && ContractWorkflow(w, x))
            && (forall y :: y in c.plan ==> exists w :: w in m.workflows && ContractPlan(w, y))
  {
    hide *;
    CompiledParts(m);
    ContractParts(m);
    PlanFromTree(m);
    SortedPlans(m);
    DomainCodesDiffer(m);
    CodesDiffer(m);
    ActionsHaveDots(m);
    forall d ensures DomainMeans(d, DomainFor(d)) && DomainCode(DomainFor(d)) == CodeOf(d) { OneDomain(d); }
    forall w ensures WorkflowCode(WorkflowFor(w)) == SourceCode(w) { OneWorkflow(w); }
    SortedImage(DomainFor, CodeOf, DomainCode, m.domains);
    SortedImage(WorkflowFor, SourceCode, WorkflowCode, m.workflows);
    forall w | w in m.workflows ensures ContractWorkflow(w, WorkflowFor(w)) && ContractPlan(w, PlanFor(w)) {
      WorkflowIsContracted(w);
    }
  }

  lemma OneDomain(d: Domain)
    ensures DomainMeans(d, DomainFor(d)) && DomainCode(DomainFor(d)) == CodeOf(d)
  {
    DomainIsMeant(d);
  }

  lemma OneWorkflow(w: Workflow)
    ensures WorkflowCode(WorkflowFor(w)) == SourceCode(w)
  {
  }

  lemma SortedPlans(m: Module)
    requires AstCodes(m) == []
    ensures var r := MapSeq(PlanFor, SortBy(SourceCode, m.workflows));
            && |r| == |m.workflows| && Ascends(PlanCode, r) && (forall w :: w in m.workflows ==> PlanFor(w) in r)
            && (forall y :: y in r ==> exists w :: w in m.workflows && y == PlanFor(w))
  {
    hide AstCodes, PlanFor, PlanCode, SourceCode;
    CodesDiffer(m);
    forall w ensures PlanCode(PlanFor(w)) == SourceCode(w) { PlanForCode(w); }
    SortMap(SourceCode, PlanFor, PlanCode, m.workflows);
    SortedImage(PlanFor, SourceCode, PlanCode, m.workflows);
  }

  /** A tree declares a capability for a domain that is enabled; a contract lists it for one. */
  ghost predicate Declares(domains: seq<Domain>, code: string, capability: string) {
    exists d :: d in domains && d.enabled && d.code == code && capability in d.capabilities
  }

  ghost predicate Lists(domains: seq<DomainOut>, code: string, capability: string) {
    exists d :: d in domains && d.enabled && d.code == code && capability in d.capabilities
  }

  lemma DeclaredIsListed(d: Domain, domains: seq<DomainOut>, capability: string)
    requires d.enabled && capability in d.capabilities && exists x :: x in domains && DomainMeans(d, x)
    ensures Lists(domains, d.code, capability)
  {
    var x :| x in domains && DomainMeans(d, x);
    hide Ascending;
  }

  lemma ListedIsDeclared(x: DomainOut, domains: seq<Domain>, capability: string)
    requires x.enabled && capability in x.capabilities && exists d :: d in domains && DomainMeans(d, x)
    ensures Declares(domains, x.code, capability)
  {
    var d :| d in domains && DomainMeans(d, x);
    hide Ascending;
  }

  lemma ListsIffDeclares(domains: seq<Domain>, outs: seq<DomainOut>, code: string, capability: string)
    requires forall d :: d in domains ==> exists x :: x in outs && DomainMeans(d, x)
    requires forall x :: x in outs ==> exists d :: d in domains && DomainMeans(d, x)
    ensures Lists(outs, code, capability) <==> Declares(domains, code, capability)
  {
    hide *;
    if Lists(outs, code, capability) {
      var x := Listed(outs, code, capability);
      ListedIsDeclared(x, domains, capability);
    }
    if Declares(domains, code, capability) {
      var d := Declared(domains, code, capability);
      DeclaredIsListed(d, outs, capability);
    }
  }

  lemma Listed(outs: seq<DomainOut>, code: string, capability: string) returns (x: DomainOut)
    requires Lists(outs, code, capability)
    ensures x in outs && x.enabled && x.code == code && capability in x.capabilities
  {
    x :| x in outs && x.enabled && x.code == code && capability in x.capabilities;
  }

  lemma Declared(domains: seq<Domain>, code: string, capability: string) returns (d: Domain)
    requires Declares(domains, code, capability)
    ensures d in domains && d.enabled && d.code == code && capability in d.capabilities
  {
    d :| d in domains && d.enabled && d.code == code && capability in d.capabilities;
  }

  /** The bindings of a contract are the capabilities of its enabled domains. */
  lemma {:induction false} BindingsMean(domains: seq<DomainOut>, code: string, capability: string)
    ensures (code, capability) in Bindings(domains) <==> Lists(domains, code, capability)
  {
    if domains != [] {
      var n := |domains| - 1;
      BindingsMean(domains[..n], code, capability);
      assert domains == domains[..n] + [domains[n]];
      assert forall d :: d in domains <==> d in domains[..n] || d == domains[n];
      OneBinding(domains[n], code, capability);
      hide BindingsOf;
    }
  }

  lemma OneBinding(d: DomainOut, code: string, capability: string)
    ensures (code, capability) in BindingsOf(d) <==> d.enabled && d.code == code && capability in d.capabilities
  {
    if d.enabled && d.code == code && capability in d.capabilities {
      var i :| 0 <= i < |d.capabilities| && d.capabilities[i] == capability;
      assert BindingsOf(d)[i] == (code, capability);
    }
  }

  /** Main result: a compiled contract binds a capability to a domain exactly when the tree declares the domain
      enabled and lists the capability in it. */
  lemma ContractBinds(m: Module, code: string, capability: string)
    requires ParserBuilt(m) && CompileAst(m).Ok?
    ensures (code, capability) in CompileAst(m).value.contract.bindings <==> Declares(m.domains, code, capability)
  {
    hide *;
    ContractMeans(m);
    CompiledParts(m);
    ContractParts(m);
    var c := CompileAst(m).value.contract;
    BindingsMean(c.domains, code, capability);
    ListsIffDeclares(m.domains, c.domains, code, capability);
  }

  /** The policies and the metadata of a contract: the last declaration of a name or key counts, and no other name
      or key is there. */
  ghost predicate PolicyMeans(declared: seq<Policy>, policies: map<string, Field<seq<string>>>, name: string) {
    if name in policies then
      exists k: nat :: k < |declared| && declared[k].name == name && policies[name] == Given(declared[k].values)
                       && forall j :: k < j < |declared| ==> declared[j].name != name
    else
      forall p :: p in declared ==> p.name != name
  }

  ghost predicate ValueMeans(declared: seq<Metadata>, values: map<string, Scalar>, key: string) {
    if key in values then
      exists k: nat :: k < |declared| && declared[k].key == key && values[key] == declared[k].value.value
                       && forall j :: k < j < |declared| ==> declared[j].key != key
    else
      forall x :: x in declared ==> x.key != key
  }

  lemma {:induction false} PoliciesMean(declared: seq<Policy>, name: string)
    ensures PolicyMeans(declared, LowerPolicies(declared), name)
  {
    if declared != [] {
      var n := |declared| - 1;
      PoliciesMean(declared[..n], name);
      assert declared == declared[..n] + [declared[n]];
      if declared[n].name != name && name in LowerPolicies(declared) {
        var k: nat :| k < n && declared[..n][k].name == name
                      && LowerPolicies(declared[..n])[name] == Given(declared[..n][k].values)
                      && forall j :: k < j < n ==> declared[..n][j].name != name;
        assert declared[k].name == name && forall j :: k < j < |declared| ==> declared[j].name != name;
      }
    }
  }

  lemma {:induction false} ValuesMean(declared: seq<Metadata>, key: string)
    ensures ValueMeans(declared, LowerMetadata(declared), key)
  {
    if declared != [] {
      var n := |declared| - 1;
      ValuesMean(declared[..n], key);
      assert declared == declared[..n] + [declared[n]];
      if declared[n].key != key && key in LowerMetadata(declared) {
        var k: nat :| k < n && declared[..n][k].key == key
                      && LowerMetadata(declared[..n])[key] == declared[..n][k].value.value
                      && forall j :: k < j < n ==> declared[..n][j].key != key;
        assert declared[k].key == key && forall j :: k < j < |declared| ==> declared[j].key != key;
      }
    }
  }

  lemma ContractKeeps(m: Module, name: string)
    requires ParserBuilt(m) && CompileAst(m).Ok?
    ensures PolicyMeans(m.policies, CompileAst(m).value.contract.policies, name)
    ensures ValueMeans(m.metadata, CompileAst(m).value.contract.metadata, name)
  {
    hide *;
    CompiledParts(m);
    ContractParts(m);
    PoliciesMean(m.policies, name);
    ValuesMean(m.metadata, name);
  }
}
