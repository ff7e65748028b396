/** The loops of the HUS compiler: both validators, the plan generator and the plan validator. */
module CompilerDesk {
  import opened HusAst
  import opened HusCompiler
  import opened HusPlanner
  import opened HusRegistry
  import opened Outcomes
  import opened Sorting

  // ---------------------------------------------------------------- the semantic validator

  /** `validate_ast`. */
  method ValidateAst(m: Module) returns (codes: seq<string>)
    ensures codes == AstCodes(m)
  {
    codes := [];
    if m.version != "1.0" { codes := codes + ["unsupported_language_version"]; }
    if m.name == "" { codes := codes + ["module_name_required"]; }
    hide DomainsCodes, WorkflowsCodes, PoliciesCodes, AstCodes;
    assert codes == HeadCodes(m);
    var domains := ValidateDomains(m.domains);
    var workflows := ValidateWorkflows(m.workflows);
    var policies := ValidatePolicies(m.policies);
    AstCodesParts(m);
    codes := codes + domains + workflows + policies;
  }

  lemma AstCodesParts(m: Module)
    ensures AstCodes(m)
            == HeadCodes(m) + DomainsCodes(m.domains) + WorkflowsCodes(m.workflows) + PoliciesCodes(m.policies)
  {
  }

  method ValidateDomains(domains: seq<Domain>) returns (codes: seq<string>)
    ensures codes == DomainsCodes(domains)
  {
    codes := [];
    var seen: set<string> := {};
    NoDomains();
    hide DomainsCodes, CodesOf, CapabilityCodes;
    for n := 0 to |domains|
      invariant codes == DomainsCodes(domains[..n]) && seen == CodesOf(domains[..n])
    {
      NextDomain(domains, n);
      var d := domains[n];
      var own := [];
      if d.code in seen { own := own + ["duplicate_domain"]; }
      seen := seen + {d.code};
      if d.engine !in ENGINES { own := own + ["unsupported_engine"]; }
      var unsupported := ValidateCapabilities(d.engine, d.capabilities);
      own := own + unsupported;
      codes := codes + own;
    }
    assert domains[..|domains|] == domains;
  }

  lemma NoDomains()
    ensures DomainsCodes([]) == [] && CodesOf([]) == {} && DomainsDiags([]) == [] && DomainsIn([]) == {}
  {
  }

  lemma NextDomain(domains: seq<Domain>, n: nat)
    requires n < |domains|
    ensures DomainsCodes(domains[..n + 1])
            == DomainsCodes(domains[..n]) + DomainCodes(domains[n], CodesOf(domains[..n]))
    ensures CodesOf(domains[..n + 1]) == CodesOf(domains[..n]) + {domains[n].code}
  {
    hide DomainCodes;
    assert domains[..n + 1][..n] == domains[..n] && domains[..n + 1] == domains[..n] + [domains[n]];
  }

  method ValidateCapabilities(engine: string, capabilities: seq<string>) returns (codes: seq<string>)
    ensures codes == CapabilityCodes(engine, capabilities)
  {
    codes := [];
    for n := 0 to |capabilities|
      invariant codes == CapabilityCodes(engine, capabilities[..n])
    {
      assert capabilities[..n + 1][..n] == capabilities[..n];
      if capabilities[n] !in CapabilitiesFor(engine) { codes := codes + ["unsupported_capability"]; }
    }
    assert capabilities[..|capabilities|] == capabilities;
  }

  method ValidateSteps(steps: seq<StepDecl>) returns (codes: seq<string>)
    ensures codes == StepsCodes(steps)
  {
    hide ActionCodes;
    codes := [];
    var seen: set<string> := {};
    for n := 0 to |steps|
      invariant codes == StepsCodes(steps[..n]) && seen == StepsSeen(steps[..n])
    {
      assert steps[..n + 1][..n] == steps[..n] && steps[..n + 1] == steps[..n] + [steps[n]];
      if steps[n].code in seen { codes := codes + ["duplicate_step"]; }
      seen := seen + {steps[n].code};
      var action := ValidateAction(steps[n].action);
      codes := codes + action;
    }
    assert steps[..|steps|] == steps;
  }

  method ValidateAction(action: string) returns (codes: seq<string>)
    ensures codes == ActionCodes(action)
  {
    if '.' !in action { return ["action_format"]; }
    var a := Split(action);
    if a.engine !in ENGINES { return ["action_engine_unknown"]; }
    if !Allows(a.engine, a.capability) { return ["action_not_allowed"]; }
    codes := [];
  }

  method ValidateWorkflows(workflows: seq<Workflow>) returns (codes: seq<string>)
    ensures codes == WorkflowsCodes(workflows)
  {
    codes := [];
    var seen: set<string> := {};
    NoWorkflows();
    hide StepsCodes, WorkflowsCodes, WorkflowsSeen;
    for n := 0 to |workflows|
      invariant codes == WorkflowsCodes(workflows[..n]) && seen == WorkflowsSeen(workflows[..n])
    {
      NextWorkflow(workflows, n);
      if workflows[n].code in seen { codes := codes + ["duplicate_workflow"]; }
      seen := seen + {workflows[n].code};
      var steps := ValidateSteps(workflows[n].steps);
      codes := codes + steps;
    }
    assert workflows[..|workflows|] == workflows;
  }

  lemma NoWorkflows()
    ensures WorkflowsCodes([]) == [] && WorkflowsSeen([]) == {} && WorkflowsDiags([]) == [] && WorkflowsIn([]) == {}
  {
  }

  lemma NextWorkflow(workflows: seq<Workflow>, n: nat)
    requires n < |workflows|
    ensures WorkflowsCodes(workflows[..n + 1])
         == WorkflowsCodes(workflows[..n])
            + (if workflows[n].code in WorkflowsSeen(workflows[..n]) then ["duplicate_workflow"] else [])
            + StepsCodes(workflows[n].steps)
    ensures WorkflowsSeen(workflows[..n + 1]) == WorkflowsSeen(workflows[..n]) + {workflows[n].code}
  {
    hide StepsCodes;
    assert workflows[..n + 1][..n] == workflows[..n] && workflows[..n + 1] == workflows[..n] + [workflows[n]];
  }

  method ValidatePolicies(policies: seq<Policy>) returns (codes: seq<string>)
    ensures codes == PoliciesCodes(policies)
  {
    codes := [];
    for n := 0 to |policies|
      invariant codes == PoliciesCodes(policies[..n])
    {
      assert policies[..n + 1][..n] == policies[..n];
      if policies[n].name !in POLICIES { codes := codes + ["unknown_policy"]; }
    }
    assert policies[..|policies|] == policies;
  }

  // ---------------------------------------------------------------- the contract validator

  /** `compile_spec`. */
  method Compile(s: SpecIn) returns (r: Result<Contract, seq<Diagnostic>>)
    ensures r == CompileSpec(s)
  {
    hide DomainsDiags, WorkflowsDiags, PolicyDiags, ContractOf, Bindings;
    var d := HeadDiags(s);
    d := d + if s.domains.Malformed? then [Diagnostic("Validator", "domains_array")] else [];
    var domains := DiagnoseDomains(ListOf(s.domains));
    d := d + domains;
    d := d + if s.workflows.Malformed? then [Diagnostic("Validator", "workflows_array")] else [];
    var workflows := DiagnoseWorkflows(ListOf(s.workflows));
    d := d + workflows;
    d := d + PolicyDiags(s);
    if d != [] { return Err(d); }
    var contract := Resolve(s);
    r := Ok(contract);
  }

  method DiagnoseDomains(domains: seq<DomainIn>) returns (diags: seq<Diagnostic>)
    ensures diags == DomainsDiags(domains)
  {
    hide DomainDiags;
    diags := [];
    var seen: set<string> := {};
    NoDomains();
    for n := 0 to |domains|
      invariant diags == DomainsDiags(domains[..n]) && seen == DomainsIn(domains[..n])
    {
      assert domains[..n + 1][..n] == domains[..n] && domains[..n + 1] == domains[..n] + [domains[n]];
      diags := diags + DomainDiags(domains[n], seen);
      if domains[n].DomainIn? && !Blank(domains[n].code) { seen := seen + {domains[n].code.value}; }
    }
    assert domains[..|domains|] == domains;
  }

  method DiagnoseSteps(steps: seq<StepIn>) returns (diags: seq<Diagnostic>)
    ensures diags == StepsDiags(steps)
  {
    hide StepDiags;
    diags := [];
    var seen: set<string> := {};
    for n := 0 to |steps|
      invariant diags == StepsDiags(steps[..n]) && seen == StepsIn(steps[..n])
    {
      assert steps[..n + 1][..n] == steps[..n] && steps[..n + 1] == steps[..n] + [steps[n]];
      diags := diags + StepDiags(steps[n], seen);
      if NamedStep(steps[n]) { seen := seen + {steps[n].code.value}; }
    }
    assert steps[..|steps|] == steps;
  }

  method DiagnoseWorkflows(workflows: seq<WorkflowIn>) returns (diags: seq<Diagnostic>)
    ensures diags == WorkflowsDiags(workflows)
  {
    hide StepsDiags;
    diags := [];
    var seen: set<string> := {};
    NoWorkflows();
    hide WorkflowsDiags, WorkflowsIn, WorkflowDiags;
    for n := 0 to |workflows|
      invariant diags == WorkflowsDiags(workflows[..n]) && seen == WorkflowsIn(workflows[..n])
    {
      NextWorkflowIn(workflows, n);
      var w := workflows[n];
      var own := DiagnoseWorkflow(w, seen);
      diags := diags + own;
      if w.WorkflowIn? && !Blank(w.code) { seen := seen + {w.code.value}; }
    }
    assert workflows[..|workflows|] == workflows;
  }

  lemma NextWorkflowIn(workflows: seq<WorkflowIn>, n: nat)
    requires n < |workflows|
    ensures WorkflowsDiags(workflows[..n + 1])
            == WorkflowsDiags(workflows[..n]) + WorkflowDiags(workflows[n], WorkflowsIn(workflows[..n]))
    ensures WorkflowsIn(workflows[..n + 1])
         == WorkflowsIn(workflows[..n])
            + if workflows[n].WorkflowIn? && !Blank(workflows[n].code) then {workflows[n].code.value} else {}
  {
    hide WorkflowDiags;
    assert workflows[..n + 1][..n] == workflows[..n] && workflows[..n + 1] == workflows[..n] + [workflows[n]];
  }

  method DiagnoseWorkflow(w: WorkflowIn, seen: set<string>) returns (diags: seq<Diagnostic>)
    ensures diags == WorkflowDiags(w, seen)
  {
    hide StepsDiags, Repeat;
    if w.NotAWorkflow? { return [Diagnostic("Validator", "workflow_object")]; }
    diags := Repeat("Validator", "unknown_workflow_key", |w.unknown|);
    if Blank(w.code) { diags := diags + [Diagnostic("Validator", "workflow_code_required")]; }
    else if w.code.value in seen { diags := diags + [Diagnostic("Validator", "duplicate_workflow")]; }
    if !w.steps.Given? || w.steps.value == [] {
      diags := diags + [Diagnostic("Validator", "workflow_steps_required")];
      return;
    }
    var steps := DiagnoseSteps(w.steps.value);
    diags := diags + steps;
  }

  /** The contract: resolved domains and workflows, their bindings and their plan. */
  method Resolve(s: SpecIn) returns (c: Contract)
    ensures c == ContractOf(s)
  {
    hide ResolveDomain, ResolveWorkflow, PlanOf, SortBy, Bindings, MapSeq;
    var domains := ResolveDomains(ListOf(s.domains));
    var workflows := ResolveWorkflows(ListOf(s.workflows));
    var sorted := SortBy(DomainCode, domains);
    var bindings := Bind(sorted);
    var plan := Plan(workflows);
    c := Contract(
      if s.organization.Given? then OrElse(s.organization.value.code, "") else "",
      if s.organization.Given? then OrElse(s.organization.value.name, "") else "",
      sorted, SortBy(WorkflowCode, workflows), PolicyMap(s), if s.metadata.Given? then s.metadata.value else map[],
      bindings, SortBy(PlanCode, plan));
  }

  method ResolveDomains(ins: seq<DomainIn>) returns (outs: seq<DomainOut>)
    ensures outs == MapSeq(ResolveDomain, ins)
  {
    hide ResolveDomain;
    outs := [];
    for n := 0 to |ins|
      invariant outs == MapSeq(ResolveDomain, ins)[..n]
    {
      outs := outs + [ResolveDomain(ins[n])];
    }
  }

  method ResolveWorkflows(ins: seq<WorkflowIn>) returns (outs: seq<WorkflowOut>)
    ensures outs == MapSeq(ResolveWorkflow, ins)
  {
    hide ResolveWorkflow;
    outs := [];
    for n := 0 to |ins|
      invariant outs == MapSeq(ResolveWorkflow, ins)[..n]
    {
      outs := outs + [ResolveWorkflow(ins[n])];
    }
  }

  /** The contract injector: one binding per enabled domain and capability. */
  method Bind(domains: seq<DomainOut>) returns (bindings: seq<(string, string)>)
    ensures bindings == Bindings(domains)
  {
    bindings := [];
    for n := 0 to |domains|
      invariant bindings == Bindings(domains[..n])
    {
      assert domains[..n + 1][..n] == domains[..n];
      var d, own := domains[n], [];
      if d.enabled {
        for k := 0 to |d.capabilities|
          invariant own == BindingsOf(d)[..k]
        {
          own := own + [(d.code, d.capabilities[k])];
        }
      }
      assert own == BindingsOf(d);
      bindings := bindings + own;
    }
    assert domains[..|domains|] == domains;
  }

  /** The execution plan, in the order of the specification. */
  method Plan(workflows: seq<WorkflowOut>) returns (plan: seq<PlanWorkflow>)
    ensures plan == MapSeq(PlanOf, workflows)
  {
    hide PlanStepOf;
    plan := [];
    for n := 0 to |workflows|
      invariant plan == MapSeq(PlanOf, workflows)[..n]
    {
      var w, steps := workflows[n], [];
      for k := 0 to |w.steps|
        invariant steps == MapSeq((s: StepOut) => PlanStepOf(w.code, s), w.steps)[..k]
      {
        steps := steps + [PlanStepOf(w.code, w.steps[k])];
      }
      assert steps == PlanOf(w).steps;
      plan := plan + [PlanWorkflow(w.code, w.name, w.trigger, w.enabled, steps)];
    }
  }

  // ---------------------------------------------------------------- the plan

  /** `build_ir`. */
  method Build(m: Module) returns (r: Result<IR, PlanError>)
    ensures r == BuildIr(m)
  {
    var sorted := SortBy(SourceCode, m.workflows);
    var workflows: seq<IRWorkflow>, refs: set<Action> := [], {};
    assert refs == ActionsOf(workflows);
    hide BuildSteps, ActionsOf;
    for n := 0 to |sorted|
      invariant BuildWorkflows(sorted[..n]) == Ok(workflows)
      invariant refs == ActionsOf(workflows)
    {
      assert sorted[..n + 1][..n] == sorted[..n];
      var w := sorted[n];
      if |w.steps| > MAX_STEPS {
        FirstError(sorted, n + 1, |sorted|);
        assert sorted[..|sorted|] == sorted;
        return Err(TooManySteps(w.code));
      }
      var steps := BuildWorkflow(w);
      if steps.Err? {
        FirstError(sorted, n + 1, |sorted|);
        assert sorted[..|sorted|] == sorted;
        return Err(steps.error);
      }
      var ir := IRWorkflow(w.code, w.trigger, steps.value);
      MoreActions(workflows, ir);
      workflows := workflows + [ir];
      refs := refs + (set s | s in steps.value :: s.action);
    }
    assert sorted[..|sorted|] == sorted;
    r := Ok(IR(m.version, refs, workflows));
  }

  lemma MoreActions(workflows: seq<IRWorkflow>, ir: IRWorkflow)
    ensures ActionsOf(workflows + [ir]) == ActionsOf(workflows) + set s | s in ir.steps :: s.action
  {
    assert forall w :: w in workflows + [ir] <==> w in workflows || w == ir;
  }

  lemma {:induction false} FirstError(workflows: seq<Workflow>, n: nat, l: nat)
    requires n <= l <= |workflows| && BuildWorkflows(workflows[..n]).Err?
    ensures BuildWorkflows(workflows[..l]) == BuildWorkflows(workflows[..n])
  {
    if n < l {
      FirstError(workflows, n, l - 1);
      assert workflows[..l][..l - 1] == workflows[..l - 1];
    }
  }

  /** The loop over the steps: each depends on the one before. */
  method BuildWorkflow(w: Workflow) returns (r: Result<seq<IRStep>, PlanError>)
    ensures r == BuildSteps(w.code, w.steps)
  {
    hide CheckAction, ActionOf, RiskOf;
    var steps: seq<IRStep>, previous: Option<string> := [], None;
    for n := 0 to |w.steps|
      invariant BuildSteps(w.code, w.steps[..n]) == Ok(steps)
      invariant previous == PreviousId(w.code, w.steps[..n])
    {
      assert w.steps[..n + 1][..n] == w.steps[..n];
      var s := w.steps[n];
      var objection := CheckAction(s.action);
      if objection.Some? {
        FirstStepError(w.code, w.steps, n + 1, |w.steps|);
        assert w.steps[..|w.steps|] == w.steps;
        return Err(objection.value);
      }
      var risk := RiskOf(ActionOf(s.action));
      steps := steps + [IRStep(StepId(w.code, s.code), ActionOf(s.action),
                               if previous.Some? then [previous.value] else [],
                               s.approval || risk != "read", risk, DEFAULT_TIMEOUT, DEFAULT_RETRIES, risk != "read")];
      previous := Some(StepId(w.code, s.code));
    }
    assert w.steps[..|w.steps|] == w.steps;
    r := Ok(steps);
  }

  lemma {:induction false} FirstStepError(workflow: string, steps: seq<StepDecl>, n: nat, l: nat)
    requires n <= l <= |steps| && BuildSteps(workflow, steps[..n]).Err?
    ensures BuildSteps(workflow, steps[..l]) == BuildSteps(workflow, steps[..n])
  {
    if n < l {
      FirstStepError(workflow, steps, n, l - 1);
      assert steps[..l][..l - 1] == steps[..l - 1];
    }
  }

  /** `validate_ir`. */
  method ValidatePlan(workflows: seq<IRWorkflow>) returns (r: Option<PlanError>)
    ensures r == ValidateIr(workflows)
  {
    hide CheckSteps, AllIds, Ids;
    var seen: set<string> := {};
    r := None;
    assert AllIds(workflows[..0]) == {} by { NoIdsYet(workflows); }
    for n := 0 to |workflows|
      invariant r.None? && ValidateIr(workflows[..n]).None? && seen == AllIds(workflows[..n])
    {
      assert workflows[..n + 1][..n] == workflows[..n] && workflows[..n + 1] == workflows[..n] + [workflows[n]];
      AllIdsStep(workflows[..n], workflows[n]);
      r := ValidatePlanSteps(workflows[n].steps, seen);
      if r.Some? {
        FirstObjection(workflows, n + 1, |workflows|);
        assert workflows[..|workflows|] == workflows;
        return;
      }
      seen := seen + Ids(workflows[n].steps);
    }
    assert workflows[..|workflows|] == workflows;
  }

  lemma NoIdsYet(workflows: seq<IRWorkflow>)
    ensures AllIds(workflows[..0]) == {}
  {
  }

  lemma {:induction false} FirstObjection(workflows: seq<IRWorkflow>, n: nat, l: nat)
    requires n <= l <= |workflows| && ValidateIr(workflows[..n]).Some?
    ensures ValidateIr(workflows[..l]) == ValidateIr(workflows[..n])
  {
    if n < l {
      FirstObjection(workflows, n, l - 1);
      assert workflows[..l][..l - 1] == workflows[..l - 1];
    }
  }

  method ValidatePlanSteps(steps: seq<IRStep>, before: set<string>) returns (r: Option<PlanError>)
    ensures r == CheckSteps(steps, before)
  {
    var previous: set<string> := {};
    r := None;
    for n := 0 to |steps|
      invariant r.None? && CheckSteps(steps[..n], before).None? && previous == Ids(steps[..n])
    {
      assert steps[..n + 1][..n] == steps[..n] && steps[..n + 1] == steps[..n] + [steps[n]];
      var s := steps[n];
      var seen := before + previous;
      if s.id in seen { r := Some(DuplicateStep(s.id)); }
      else if s.timeout < 1 || s.timeout > MAX_TIMEOUT { r := Some(TimeoutOutOfBounds); }
      else if s.retries < 0 || s.retries > MAX_RETRIES { r := Some(RetriesOutOfBounds); }
      else if exists d :: d in s.dependsOn && d !in previous { r := Some(LaterDependency); }
      else if s.risk != "read" && !s.idempotent { r := Some(MutationWithoutIdempotency); }
      if r.Some? {
        FirstStepObjection(steps, before, n + 1, |steps|);
        assert steps[..|steps|] == steps;
        return;
      }
      previous := previous + {s.id};
    }
    assert steps[..|steps|] == steps;
  }

  lemma {:induction false} FirstStepObjection(steps: seq<IRStep>, before: set<string>, n: nat, l: nat)
    requires n <= l <= |steps| && CheckSteps(steps[..n], before).Some?
    ensures CheckSteps(steps[..l], before) == CheckSteps(steps[..n], before)
  {
    if n < l {
      FirstStepObjection(steps, before, n, l - 1);
      assert steps[..l][..l - 1] == steps[..l - 1];
    }
  }
}
