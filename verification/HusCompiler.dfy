/** The HUS compiler: two validators, the lowering between them, and the contract.

    A diagnostic is its stage and code. A mapping key holds a value of its own kind, is absent, or is
    malformed; other mix-ups of JSON kinds are not modelled. */
module HusCompiler {
  import opened HusAst
  import opened HusRegistry
  import opened Outcomes
  import opened Sorting

  datatype Diagnostic = Diagnostic(stage: string, code: string)

  datatype Field<T> = Absent | Malformed | Given(value: T)

  datatype OrgIn = OrgIn(code: Option<string>, name: Option<string>)

  datatype DomainIn =
    | NotADomain
    | DomainIn(unknown: seq<string>, code: Option<string>, name: Option<string>, engine: Option<string>,
               enabled: Option<bool>, capabilities: Field<seq<string>>)

  datatype StepIn = NotAStep
    | StepIn(unknown: seq<string>, code: Option<string>, action: Option<string>, approval: Option<bool>)

  datatype WorkflowIn =
    | NotAWorkflow
    | WorkflowIn(unknown: seq<string>, code: Option<string>, name: Option<string>, trigger: Option<string>,
                 enabled: Option<bool>, steps: Field<seq<StepIn>>)

  datatype SpecIn = SpecIn(
    unknown: seq<string>, version: Option<string>, organization: Field<OrgIn>, domains: Field<seq<DomainIn>>,
    workflows: Field<seq<WorkflowIn>>, policies: Field<map<string, Field<seq<string>>>>,
        metadata: Field<map<string, Scalar>>)

  // ---------------------------------------------------------------- actions

  function DotAt(s: string): (k: nat)
    ensures k <= |s| && (k < |s| ==> s[k] == '.') && (k == |s| <==> '.' !in s)
  {
    if s == "" || s[0] == '.' then 0 else 1 + DotAt(s[1..])
  }

  /** `action.split('.', 1)`. */
  function Split(s: string): Action
    requires '.' in s
  {
    Action(s[..DotAt(s)], s[DotAt(s) + 1..])
  }

  /** What both validators say about an action. */
  function ActionCodes(action: string): seq<string> {
    if '.' !in action then ["action_format"]
    else
      var a := Split(action);
      if a.engine !in ENGINES then ["action_engine_unknown"]
      else if !Allows(a.engine, a.capability) then ["action_not_allowed"]
      else []
  }

  function Labelled(stage: string, codes: seq<string>): (d: seq<Diagnostic>)
    ensures |d| == |codes| && forall i :: 0 <= i < |d| ==> d[i] == Diagnostic(stage, codes[i])
  {
    seq(|codes|, i requires 0 <= i < |codes| => Diagnostic(stage, codes[i]))
  }

  // ---------------------------------------------------------------- the semantic validator

  const POLICIES: set<string> := {"approval_required", "allowed_roles"}

  function HeadCodes(m: Module): seq<string> {
    (if m.version != "1.0" then ["unsupported_language_version"] else [])
        + if m.name == "" then ["module_name_required"] else []
  }

  function CapabilityCodes(engine: string, capabilities: seq<string>): seq<string> {
    if capabilities == [] then []
    else
      var n := |capabilities| - 1;
      CapabilityCodes(engine, capabilities[..n])
          + if capabilities[n] !in CapabilitiesFor(engine) then ["unsupported_capability"] else []
  }

  function DomainCodes(d: Domain, seen: set<string>): seq<string> {
    (if d.code in seen then ["duplicate_domain"] else [])
    + (if d.engine !in ENGINES then ["unsupported_engine"] else [])
    + CapabilityCodes(d.engine, d.capabilities)
  }

  function CodesOf(domains: seq<Domain>): set<string> { set d | d in domains :: d.code }

  function DomainsCodes(domains: seq<Domain>): seq<string> {
    if domains == [] then []
    else
      var n := |domains| - 1;
      DomainsCodes(domains[..n]) + DomainCodes(domains[n], CodesOf(domains[..n]))
  }

  function StepsSeen(steps: seq<StepDecl>): set<string> { set s | s in steps :: s.code }

  function StepsCodes(steps: seq<StepDecl>): seq<string> {
    if steps == [] then []
    else
      var n := |steps| - 1;
      StepsCodes(steps[..n])
      + (if steps[n].code in StepsSeen(steps[..n]) then ["duplicate_step"] else [])
      + ActionCodes(steps[n].action)
  }

  function WorkflowsSeen(workflows: seq<Workflow>): set<string> { set w | w in workflows :: w.code }

  function WorkflowsCodes(workflows: seq<Workflow>): seq<string> {
    if workflows == [] then []
    else
      var n := |workflows| - 1;
      WorkflowsCodes(workflows[..n])
      + (if workflows[n].code in WorkflowsSeen(workflows[..n]) then ["duplicate_workflow"] else [])
      + StepsCodes(workflows[n].steps)
  }

  function PoliciesCodes(policies: seq<Policy>): seq<string> {
    if policies == [] then []
    else
      var n := |policies| - 1;
      PoliciesCodes(policies[..n]) + if policies[n].name !in POLICIES then ["unknown_policy"] else []
  }

  /** `validate_ast`. */
  function AstCodes(m: Module): seq<string> {
    HeadCodes(m) + DomainsCodes(m.domains) + WorkflowsCodes(m.workflows) + PoliciesCodes(m.policies)
  }

  // ---------------------------------------------------------------- the contract validator

  predicate Blank(s: Option<string>) { s.None? || s.value == "" }

  function Repeat(stage: string, code: string, n: nat): (r: seq<Diagnostic>)
    ensures |r| == n
  {
    if n == 0 then [] else Repeat(stage, code, n - 1) + [Diagnostic(stage, code)]
  }

  function EngineOf(d: DomainIn): string
    requires d.DomainIn?
  {
    if d.engine.Some? then d.engine.value else ""
  }

  function DomainDiags(d: DomainIn, seen: set<string>): seq<Diagnostic> {
    if d.NotADomain? then [Diagnostic("Validator", "domain_object")]
    else
      Repeat("Validator", "unknown_domain_key", |d.unknown|)
      + (if Blank(d.code) then [Diagnostic("Validator", "domain_code_required")]
         else if d.code.value in seen then [Diagnostic("Validator", "duplicate_domain")] else [])
      + (if d.engine.None? || d.engine.value !in ENGINES then [Diagnostic("Resolver", "unsupported_engine")] else [])
      + match d.capabilities
        case Absent => []
        case Malformed => [Diagnostic("Validator", "capabilities_array")]
        case Given(caps) => Labelled("Resolver", CapabilityCodes(EngineOf(d), caps))
  }

  function DomainsIn(domains: seq<DomainIn>): set<string> {
    set d | d in domains && d.DomainIn? && !Blank(d.code) :: d.code.value
  }

  function DomainsDiags(domains: seq<DomainIn>): seq<Diagnostic> {
    if domains == [] then []
    else
      var n := |domains| - 1;
      DomainsDiags(domains[..n]) + DomainDiags(domains[n], DomainsIn(domains[..n]))
  }

  predicate NamedStep(s: StepIn) { s.StepIn? && !Blank(s.code) && !Blank(s.action) }

  function StepDiags(s: StepIn, seen: set<string>): seq<Diagnostic> {
    if s.NotAStep? then [Diagnostic("Validator", "step_invalid")]
    else
      Repeat("Validator", "unknown_step_key", |s.unknown|)
      + (if !NamedStep(s) then [Diagnostic("Validator", "step_invalid")]
         else if s.code.value in seen then [Diagnostic("Validator", "duplicate_step")] else [])
      + if Blank(s.action) then [] else Labelled("Resolver", ActionCodes(s.action.value))
  }

  function StepsIn(steps: seq<StepIn>): set<string> { set s | s in steps && NamedStep(s) :: s.code.value }

  function StepsDiags(steps: seq<StepIn>): seq<Diagnostic> {
    if steps == [] then []
    else
      var n := |steps| - 1;
      StepsDiags(steps[..n]) + StepDiags(steps[n], StepsIn(steps[..n]))
  }

  function WorkflowDiags(w: WorkflowIn, seen: set<string>): seq<Diagnostic> {
    if w.NotAWorkflow? then [Diagnostic("Validator", "workflow_object")]
    else
      Repeat("Validator", "unknown_workflow_key", |w.unknown|)
      + (if Blank(w.code) then [Diagnostic("Validator", "workflow_code_required")]
         else if w.code.value in seen then [Diagnostic("Validator", "duplicate_workflow")] else [])
      + if w.steps.Given? && w.steps.value != [] then StepsDiags(w.steps.value)
      else [Diagnostic("Validator", "workflow_steps_required")]
  }

  function WorkflowsIn(workflows: seq<WorkflowIn>): set<string> {
    set w | w in workflows && w.WorkflowIn? && !Blank(w.code) :: w.code.value
  }

  function WorkflowsDiags(workflows: seq<WorkflowIn>): seq<Diagnostic> {
    if workflows == [] then []
    else
      var n := |workflows| - 1;
      WorkflowsDiags(workflows[..n]) + WorkflowDiags(workflows[n], WorkflowsIn(workflows[..n]))
  }

  function HeadDiags(s: SpecIn): seq<Diagnostic> {
    Repeat("Validator", "unknown_root_key", |s.unknown|)
    + (if s.version != Some("1.0") then [Diagnostic("Validator", "unsupported_spec_version")] else [])
    + (if s.organization.Given? && !Blank(s.organization.value.code) && !Blank(s.organization.value.name) then []
       else [Diagnostic("Validator", "organization_required")])
  }

  function ListOf<T>(f: Field<seq<T>>): seq<T> { if f.Given? then f.value else [] }

  function PolicyMap(s: SpecIn): map<string, Field<seq<string>>> {
    if s.policies.Given? then s.policies.value else map[]
  }

  function PolicyDiags(s: SpecIn): seq<Diagnostic> {
    var policies := PolicyMap(s);
    (if s.policies.Malformed? then [Diagnostic("Validator", "policies_object")] else [])
    + Repeat("Validator", "unknown_policy", |policies.Keys - POLICIES|)
    + (if "approval_required" in policies
       && !policies["approval_required"].Given? then [Diagnostic("Validator", "approval_policy_array")] else [])
    + (if "allowed_roles" in policies
       && !policies["allowed_roles"].Given? then [Diagnostic("Validator", "allowed_roles_array")] else [])
  }

  /** The diagnostics of `compile_spec`. */
  function SpecDiags(s: SpecIn): seq<Diagnostic> {
    HeadDiags(s)
    + (if s.domains.Malformed? then [Diagnostic("Validator", "domains_array")] else [])
    + DomainsDiags(ListOf(s.domains))
    + (if s.workflows.Malformed? then [Diagnostic("Validator", "workflows_array")] else [])
    + WorkflowsDiags(ListOf(s.workflows))
    + PolicyDiags(s)
  }

  // ---------------------------------------------------------------- lowering

  function LowerDomain(d: Domain): DomainIn {
    DomainIn([], Some(d.code), Some(if d.name.Some? && d.name.value != "" then d.name.value else d.code),
             Some(d.engine), Some(d.enabled), Given(d.capabilities))
  }

  function LowerStep(s: StepDecl): StepIn { StepIn([], Some(s.code), Some(s.action), Some(s.approval)) }

  function LowerWorkflow(w: Workflow): WorkflowIn {
    WorkflowIn([], Some(w.code), Some(if w.name.Some? && w.name.value != "" then w.name.value else w.code),
               Some(w.trigger), Some(w.enabled), Given(MapSeq(LowerStep, w.steps)))
  }

  /** A dictionary comprehension: the last policy of a name wins. */
  function LowerPolicies(policies: seq<Policy>): map<string, Field<seq<string>>> {
    if policies == [] then map[]
    else
      var p := policies[|policies| - 1];
      LowerPolicies(policies[..|policies| - 1])[p.name := Given(p.values)]
  }

  function LowerMetadata(metadata: seq<Metadata>): map<string, Scalar> {
    if metadata == [] then map[]
    else
      var m := metadata[|metadata| - 1];
      LowerMetadata(metadata[..|metadata| - 1])[m.key := m.value.value]
  }

  /** `ast_to_spec`. */
  function AstToSpec(m: Module): SpecIn {
    SpecIn([], Some("1.0"), Given(OrgIn(Some(m.organization.code), Some(m.organization.name))),
           Given(MapSeq(LowerDomain, m.domains)), Given(MapSeq(LowerWorkflow, m.workflows)),
           Given(LowerPolicies(m.policies)), Given(LowerMetadata(m.metadata)))
  }

  // ---------------------------------------------------------------- the contract

  datatype DomainOut = DomainOut(code: string, name: string, engine: string, enabled: bool, capabilities: seq<string>)

  datatype StepOut = StepOut(code: string, action: string, approval: bool)

  datatype WorkflowOut = WorkflowOut(code: string, name: string, trigger: Option<string>, enabled: bool,
                                     steps: seq<StepOut>)

  /** A step of the execution plan. */
  datatype PlanStepOut = PlanStepOut(id: string, action: Action, read: bool, idempotent: bool)

  datatype PlanWorkflow = PlanWorkflow(code: string, name: string, trigger: Option<string>, enabled: bool,
                                       steps: seq<PlanStepOut>)

  datatype Contract = Contract(
    orgCode: string, orgName: string, domains: seq<DomainOut>, workflows: seq<WorkflowOut>,
    policies: map<string, Field<seq<string>>>, metadata: map<string, Scalar>,
    bindings: seq<(string, string)>, plan: seq<PlanWorkflow>)

  function OrElse(o: Option<string>, d: string): string { if o.Some? then o.value else d }

  function ResolveDomain(d: DomainIn): DomainOut {
    if d.NotADomain? then DomainOut("", "", "", false, [])
    else
      DomainOut(OrElse(d.code, ""), OrElse(d.name, OrElse(d.code, "")), EngineOf(d), d.enabled != Some(false),
                SortedSet(ListOf(d.capabilities)))
  }

  function ResolveStep(s: StepIn): StepOut {
    if s.NotAStep? then StepOut("", "", false)
    else StepOut(OrElse(s.code, ""), OrElse(s.action, ""), s.approval == Some(true))
  }

  function ResolveWorkflow(w: WorkflowIn): WorkflowOut {
    if w.NotAWorkflow? then WorkflowOut("", "", None, false, [])
    else
      WorkflowOut(OrElse(w.code, ""), OrElse(w.name, OrElse(w.code, "")), w.trigger, w.enabled != Some(false),
                  MapSeq(ResolveStep, ListOf(w.steps)))
  }

  function DomainCode(d: DomainOut): string { d.code }

  function WorkflowCode(w: WorkflowOut): string { w.code }

  function PlanCode(w: PlanWorkflow): string { w.code }

  function BindingsOf(d: DomainOut): (r: seq<(string, string)>)
    ensures |r| == (if d.enabled then |d.capabilities| else 0)
  {
    if d.enabled then seq(|d.capabilities|, i requires 0 <= i < |d.capabilities| => (d.code, d.capabilities[i])) else []
  }

  /** Already in the order of domain and capability, so sorting them again changes nothing. */
  function Bindings(domains: seq<DomainOut>): seq<(string, string)> {
    if domains == [] then [] else Bindings(domains[..|domains| - 1]) + BindingsOf(domains[|domains| - 1])
  }

  function ActionOf(action: string): Action { if '.' in action then Split(action) else Action("", action) }

  function PlanStepOf(workflow: string, s: StepOut): PlanStepOut {
    var a := ActionOf(s.action);
    PlanStepOut(workflow + "." + s.code, a, IsRead(a), !IsRead(a))
  }

  function PlanOf(w: WorkflowOut): PlanWorkflow {
    PlanWorkflow(w.code, w.name, w.trigger, w.enabled, MapSeq((s: StepOut) => PlanStepOf(w.code, s), w.steps))
  }

  function ContractOf(s: SpecIn): Contract {
    var domains := SortBy(DomainCode, MapSeq(ResolveDomain, ListOf(s.domains)));
    var workflows := MapSeq(ResolveWorkflow, ListOf(s.workflows));
    Contract(
      if s.organization.Given? then OrElse(s.organization.value.code, "") else "",
      if s.organization.Given? then OrElse(s.organization.value.name, "") else "",
      domains, SortBy(WorkflowCode, workflows), PolicyMap(s),
      if s.metadata.Given? then s.metadata.value else map[],
      Bindings(domains), SortBy(PlanCode, MapSeq(PlanOf, workflows)))
  }

  /** `compile_spec`. */
  function CompileSpec(s: SpecIn): Result<Contract, seq<Diagnostic>> {
    if SpecDiags(s) == [] then Ok(ContractOf(s)) else Err(SpecDiags(s))
  }
}
