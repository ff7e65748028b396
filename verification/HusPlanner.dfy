/** Semantic lowering to the typed plan (the IR), and the source compiler on top of it. */
module HusPlanner {
  import opened HusAst
  import opened HusCompiler
  import opened HusRegistry
  import opened Outcomes
  import opened Sorting

  datatype IRStep = IRStep(
    id: string, action: Action, dependsOn: seq<string>, approval: bool, risk: string,
    timeout: int, retries: int, idempotent: bool)

  datatype IRWorkflow = IRWorkflow(code: string, trigger: string, steps: seq<IRStep>)

  datatype IR = IR(language: string, capabilities: set<Action>, workflows: seq<IRWorkflow>)

  datatype PlanError =
    | TooManySteps(workflow: string)
    | NoCapability(action: string)
    | UnknownEngine(engine: string)
    | UnknownCapability(action: string)
    | DuplicateStep(id: string)
    | TimeoutOutOfBounds
    | RetriesOutOfBounds
    | LaterDependency
    | MutationWithoutIdempotency

  const MAX_STEPS := 128
  const DEFAULT_TIMEOUT := 30
  const MAX_TIMEOUT := 300
  const DEFAULT_RETRIES := 0
  const MAX_RETRIES := 3

  function SourceCode(w: Workflow): string { w.code }

  function StepId(workflow: string, step: string): string { workflow + "." + step }

  /** `_risk`. */
  function RiskOf(a: Action): string {
    if IsRead(a) then "read"
    else if a.capability == "moderate" || a.capability == "admin" then a.capability else "mutation"
  }

  /** The engine and the capability must be registered. */
  function CheckAction(action: string): Option<PlanError> {
    if '.' !in action then Some(NoCapability(action))
    else
      var a := Split(action);
      if a.engine !in ENGINES then Some(UnknownEngine(a.engine))
      else if !Allows(a.engine, a.capability) then Some(UnknownCapability(action))
      else None
  }

  function IRStepOf(workflow: string, s: StepDecl, previous: Option<string>): IRStep {
    var a := ActionOf(s.action);
    var risk := RiskOf(a);
    IRStep(StepId(workflow, s.code), a, if previous.Some? then [previous.value] else [],
           s.approval || risk != "read", risk, DEFAULT_TIMEOUT, DEFAULT_RETRIES, risk != "read")
  }

  function PreviousId(workflow: string, steps: seq<StepDecl>): Option<string> {
    if steps == [] then None else Some(StepId(workflow, steps[|steps| - 1].code))
  }

  function BuildSteps(workflow: string, steps: seq<StepDecl>): Result<seq<IRStep>, PlanError> {
    if steps == [] then Ok([])
    else
      var n := |steps| - 1;
      var init :- BuildSteps(workflow, steps[..n]);
      match CheckAction(steps[n].action)
      case Some(e) => Err(e)
      case None => Ok(init + [IRStepOf(workflow, steps[n], PreviousId(workflow, steps[..n]))])
  }

  function BuildWorkflows(workflows: seq<Workflow>): Result<seq<IRWorkflow>, PlanError> {
    if workflows == [] then Ok([])
    else
      var n := |workflows| - 1;
      var init :- BuildWorkflows(workflows[..n]);
      var w := workflows[n];
      if |w.steps| > MAX_STEPS then Err(TooManySteps(w.code))
      else
        var steps :- BuildSteps(w.code, w.steps);
        Ok(init + [IRWorkflow(w.code, w.trigger, steps)])
  }

  function ActionsOf(workflows: seq<IRWorkflow>): set<Action> { set w, s | w in workflows && s in w.steps :: s.action }

  /** `build_ir`. */
  function BuildIr(m: Module): Result<IR, PlanError> {
    var workflows :- BuildWorkflows(SortBy(SourceCode, m.workflows));
    Ok(IR(m.version, ActionsOf(workflows), workflows))
  }

  function Ids(steps: seq<IRStep>): set<string> { set s | s in steps :: s.id }

  function AllIds(workflows: seq<IRWorkflow>): set<string> { set w, s | w in workflows && s in w.steps :: s.id }

  function CheckStep(s: IRStep, seen: set<string>, previous: set<string>): Option<PlanError> {
    if s.id in seen then Some(DuplicateStep(s.id))
    else if s.timeout < 1 || s.timeout > MAX_TIMEOUT then Some(TimeoutOutOfBounds)
    else if s.retries < 0 || s.retries > MAX_RETRIES then Some(RetriesOutOfBounds)
    else if exists d :: d in s.dependsOn && d !in previous then Some(LaterDependency)
    else if s.risk != "read" && !s.idempotent then Some(MutationWithoutIdempotency)
    else None
  }

  function CheckSteps(steps: seq<IRStep>, seen: set<string>): Option<PlanError> {
    if steps == [] then None
    else
      var n := |steps| - 1;
      var first := CheckSteps(steps[..n], seen);
      if first.Some? then first else CheckStep(steps[n], seen + Ids(steps[..n]), Ids(steps[..n]))
  }

  /** `validate_ir`: the first objection, if any. */
  function ValidateIr(workflows: seq<IRWorkflow>): Option<PlanError> {
    if workflows == [] then None
    else
      var n := |workflows| - 1;
      var first := ValidateIr(workflows[..n]);
      if first.Some? then first else CheckSteps(workflows[n].steps, AllIds(workflows[..n]))
  }

  datatype CompileError = Rejected(codes: seq<string>) | Invalid(diagnostics: seq<Diagnostic>)
    | Unplannable(error: PlanError)

  datatype Compiled = Compiled(contract: Contract, ir: IR)

  /** `compile_source` from the tree on. */
  function CompileAst(m: Module): Result<Compiled, CompileError> {
    if AstCodes(m) != [] then Err(Rejected(AstCodes(m)))
    else
      match CompileSpec(AstToSpec(m))
      case Err(d) => Err(Invalid(d))
      case Ok(contract) =>
        match BuildIr(m)
        case Err(e) => Err(Unplannable(e))
        case Ok(ir) =>
          match ValidateIr(ir.workflows)
          case Some(e) => Err(Unplannable(e))
          case None => Ok(Compiled(contract, ir))
  }

  // ---------------------------------------------------------------- what can still go wrong after validation

  lemma CheckedAction(action: string)
    ensures CheckAction(action).None? <==> ActionCodes(action) == []
  {
  }

  lemma {:induction false} StepsChecked(steps: seq<StepDecl>)
    requires StepsCodes(steps) == []
    ensures forall s :: s in steps ==> ActionCodes(s.action) == []
  {
    hide ActionCodes, StepsSeen;
    if steps != [] {
      var n := |steps| - 1;
      StepsChecked(steps[..n]);
      assert forall s :: s in steps <==> s in steps[..n] || s == steps[n];
    }
  }

  lemma {:induction false} WorkflowsChecked(workflows: seq<Workflow>)
    requires WorkflowsCodes(workflows) == []
    ensures forall w :: w in workflows ==> StepsCodes(w.steps) == []
  {
    hide StepsCodes, WorkflowsSeen;
    if workflows != [] {
      var n := |workflows| - 1;
      WorkflowsChecked(workflows[..n]);
      assert forall w :: w in workflows <==> w in workflows[..n] || w == workflows[n];
    }
  }

  /** The IR steps of a workflow, one by one. */
  predicate BuiltFrom(workflow: string, steps: seq<StepDecl>, built: seq<IRStep>) {
    |built| == |steps| && forall k :: 0 <= k < |steps| ==>
        built[k] == IRStepOf(workflow, steps[k], PreviousId(workflow, steps[..k]))
  }

  lemma {:induction false} BuiltSteps(workflow: string, steps: seq<StepDecl>)
    requires forall s :: s in steps ==> ActionCodes(s.action) == []
    ensures BuildSteps(workflow, steps).Ok? && BuiltFrom(workflow, steps, BuildSteps(workflow, steps).value)
  {
    hide ActionCodes, CheckAction, IRStepOf, PreviousId;
    if steps != [] {
      var n := |steps| - 1;
      BuiltSteps(workflow, steps[..n]);
      CheckedAction(steps[n].action);
      var built := BuildSteps(workflow, steps).value;
      assert forall k :: 0 <= k < n ==> steps[..n][..k] == steps[..k];
    }
  }

  predicate BuiltAs(w: Workflow, ir: IRWorkflow) {
    ir.code == w.code && ir.trigger == w.trigger && BuiltFrom(w.code, w.steps, ir.steps)
  }

  lemma {:induction false} BuiltWorkflows(workflows: seq<Workflow>)
    requires forall w :: w in workflows ==> StepsCodes(w.steps) == []
    ensures BuildWorkflows(workflows).Ok? <==> forall w :: w in workflows ==> |w.steps| <= MAX_STEPS
    ensures BuildWorkflows(workflows).Ok? ==>
              && |BuildWorkflows(workflows).value| == |workflows|
              && forall i :: 0 <= i < |workflows| ==> BuiltAs(workflows[i], BuildWorkflows(workflows).value[i])
  {
    hide StepsCodes, BuildSteps, BuiltFrom;
    if workflows != [] {
      var n := |workflows| - 1;
      assert forall w :: w in workflows <==> w in workflows[..n] || w == workflows[n];
      BuiltWorkflows(workflows[..n]);
      StepsChecked(workflows[n].steps);
      BuiltSteps(workflows[n].code, workflows[n].steps);
    }
  }

  // ---------------------------------------------------------------- step ids

  function IrId(s: IRStep): string { s.id }

  function StepIds(w: Workflow): seq<string> { MapSeq((s: StepDecl) => StepId(w.code, s.code), w.steps) }

  /** The ids of all steps. Codes may contain dots, so different steps may share an id. */
  function IdsOf(workflows: seq<Workflow>): seq<string> {
    if workflows == [] then [] else IdsOf(workflows[..|workflows| - 1]) + StepIds(workflows[|workflows| - 1])
  }

  function IrIds(workflows: seq<IRWorkflow>): seq<string> {
    if workflows == [] then [] else IrIds(workflows[..|workflows| - 1]) + MapSeq(IrId, workflows[|workflows| - 1].steps)
  }

  ghost predicate NoRepeat(ids: seq<string>) { DistinctKeys(Itself, ids) }

  lemma NoRepeatConcat(a: seq<string>, b: seq<string>)
    ensures NoRepeat(a + b) <==> NoRepeat(a) && NoRepeat(b) && forall x :: x in a ==> x !in b
  {
    var s := a + b;
    if NoRepeat(s) {
      forall i, j | 0 <= i < j < |a| ensures Itself(a[i]) != Itself(a[j]) { assert s[i] == a[i] && s[j] == a[j]; }
      forall i, j | 0 <= i < j < |b| ensures Itself(b[i]) != Itself(b[j]) {
        assert s[|a| + i] == b[i] && s[|a| + j] == b[j];
      }
      forall x | x in a ensures x !in b {
        var i :| 0 <= i < |a| && a[i] == x;
        forall j | 0 <= j < |b| ensures b[j] != x { assert Itself(s[i]) != Itself(s[|a| + j]); }
      }
    }
    if NoRepeat(a) && NoRepeat(b) && forall x :: x in a ==> x !in b {
      forall i, j | 0 <= i < j < |s| ensures Itself(s[i]) != Itself(s[j]) {
        if j < |a| { assert Itself(a[i]) != Itself(a[j]); }
        else if i >= |a| { assert Itself(b[i - |a|]) != Itself(b[j - |a|]); }
        else { assert a[i] in a && b[j - |a|] in b; }
      }
    }
  }

  lemma BuiltIds(w: Workflow, ir: IRWorkflow)
    requires BuiltAs(w, ir)
    ensures MapSeq(IrId, ir.steps) == StepIds(w)
  {
  }

  lemma {:induction false} BuiltAllIds(workflows: seq<Workflow>, irs: seq<IRWorkflow>)
    requires |workflows| == |irs| && forall i :: 0 <= i < |irs| ==> BuiltAs(workflows[i], irs[i])
    ensures IrIds(irs) == IdsOf(workflows)
  {
    hide BuiltAs, StepIds;
    if irs != [] {
      var n := |irs| - 1;
      BuiltAllIds(workflows[..n], irs[..n]);
      BuiltIds(workflows[n], irs[n]);
    }
  }

  // ---------------------------------------------------------------- the plan validator

  lemma IdsAreIds(steps: seq<IRStep>)
    ensures forall x :: x in Ids(steps) <==> x in MapSeq(IrId, steps)
  {
    var ids := MapSeq(IrId, steps);
    forall x | x in Ids(steps) ensures x in ids {
      var s :| s in steps && s.id == x;
      var i :| 0 <= i < |steps| && steps[i] == s;
      assert ids[i] == x;
    }
  }

  lemma {:induction false} AllIdsAreIds(workflows: seq<IRWorkflow>)
    ensures forall x :: x in AllIds(workflows) <==> x in IrIds(workflows)
  {
    if workflows != [] {
      var n := |workflows| - 1;
      AllIdsAreIds(workflows[..n]);
      IdsAreIds(workflows[n].steps);
      AllIdsStep(workflows[..n], workflows[n]);
      assert workflows == workflows[..n] + [workflows[n]];
      hide AllIds, Ids;
    }
  }

  lemma AllIdsStep(init: seq<IRWorkflow>, last: IRWorkflow)
    ensures AllIds(init + [last]) == AllIds(init) + Ids(last.steps)
  {
    var all := init + [last];
    assert forall w :: w in all <==> w in init || w == last;
  }

  /** The last step of a built workflow only depends on an earlier one, so that its id decides. */
  lemma LastStepOk(workflow: string, decls: seq<StepDecl>, steps: seq<IRStep>, seen: set<string>)
    requires BuiltFrom(workflow, decls, steps) && steps != []
    ensures var n := |steps| - 1;
            CheckStep(steps[n], seen, Ids(steps[..n]))
                == if steps[n].id in seen then Some(DuplicateStep(steps[n].id)) else None
  {
    var n := |steps| - 1;
    var last := steps[n];
    assert last == IRStepOf(workflow, decls[n], PreviousId(workflow, decls[..n]));
    hide ActionOf, RiskOf;
    if n > 0 {
      var before := steps[n - 1];
      assert before == IRStepOf(workflow, decls[n - 1], PreviousId(workflow, decls[..n - 1]));
      assert decls[..n][|decls[..n]| - 1] == decls[n - 1];
      assert before in steps[..n];
      assert last.dependsOn == [before.id] && before.id in Ids(steps[..n]);
    }
  }

  lemma BuiltPrefix(workflow: string, decls: seq<StepDecl>, steps: seq<IRStep>)
    requires BuiltFrom(workflow, decls, steps) && steps != []
    ensures |decls| == |steps| && BuiltFrom(workflow, decls[..|decls| - 1], steps[..|steps| - 1])
  {
    var n := |steps| - 1;
    assert forall k :: 0 <= k < n ==> decls[..n][..k] == decls[..k];
    hide IRStepOf, PreviousId;
  }

  lemma CheckStepsUnfold(steps: seq<IRStep>, seen: set<string>)
    ensures steps == [] ==> CheckSteps(steps, seen).None?
    ensures steps != [] ==>
              var n := |steps| - 1;
              CheckSteps(steps, seen).None? <==>
                  CheckSteps(steps[..n], seen).None?
                  && CheckStep(steps[n], seen + Ids(steps[..n]), Ids(steps[..n])).None?
  {
    hide CheckStep, Ids;
  }

  lemma IdsSnoc(steps: seq<IRStep>)
    requires steps != []
    ensures MapSeq(IrId, steps) == MapSeq(IrId, steps[..|steps| - 1]) + [steps[|steps| - 1].id]
  {
  }

  lemma {:induction false} CheckStepsIff(workflow: string, decls: seq<StepDecl>, steps: seq<IRStep>, seen: set<string>)
    requires BuiltFrom(workflow, decls, steps)
    ensures CheckSteps(steps, seen).None? <==>
              NoRepeat(MapSeq(IrId, steps)) && forall x :: x in MapSeq(IrId, steps) ==> x !in seen
  {
    hide *;
    CheckStepsUnfold(steps, seen);
    if steps == [] {
      NoIds(steps);
    } else {
      var n := |steps| - 1;
      var init, last := MapSeq(IrId, steps[..n]), steps[n].id;
      LastStepOk(workflow, decls, steps, seen + Ids(steps[..n]));
      BuiltPrefix(workflow, decls, steps);
      CheckStepsIff(workflow, decls[..n], steps[..n], seen);
      IdsAreIds(steps[..n]);
      IdsSnoc(steps);
      NoRepeatConcat(init, [last]);
      NoRepeatOne(last);
      assert forall x :: x in init + [last] <==> x in init || x == last;
    }
  }

  lemma NoIds(steps: seq<IRStep>)
    requires steps == []
    ensures MapSeq(IrId, steps) == [] && NoRepeat(MapSeq(IrId, steps))
  {
  }

  lemma NoRepeatOne(x: string)
    ensures NoRepeat([x])
  {
  }

  lemma {:induction false} ValidateIff(workflows: seq<Workflow>, irs: seq<IRWorkflow>)
    requires |workflows| == |irs| && forall i :: 0 <= i < |irs| ==> BuiltAs(workflows[i], irs[i])
    ensures ValidateIr(irs).None? <==> NoRepeat(IrIds(irs))
  {
    if irs == [] {
      assert NoRepeat([]);
    } else {
      var n := |irs| - 1;
      var last := MapSeq(IrId, irs[n].steps);
      assert BuiltAs(workflows[n], irs[n]);
      CheckStepsIff(workflows[n].code, workflows[n].steps, irs[n].steps, AllIds(irs[..n]));
      hide BuiltAs, CheckSteps, NoRepeat, AllIds;
      ValidateIff(workflows[..n], irs[..n]);
      AllIdsAreIds(irs[..n]);
      NoRepeatConcat(IrIds(irs[..n]), last);
    }
  }

  // ---------------------------------------------------------------- compiling a tree

  lemma IdsConcat(a: seq<Workflow>, b: seq<Workflow>)
    ensures IdsOf(a + b) == IdsOf(a) + IdsOf(b)
    decreases |b|
  {
    hide StepIds;
    if b == [] {
      assert a + b == a;
    } else {
      var n := |b| - 1;
      IdsConcat(a, b[..n]);
      assert (a + b)[..|a + b| - 1] == a + b[..n];
    }
  }

  lemma IdsOne(w: Workflow)
    ensures IdsOf([w]) == StepIds(w)
  {
    assert [w][..0] == [];
  }

  lemma IdsWithout(s: seq<Workflow>, i: nat)
    requires i < |s|
    ensures multiset(s[..i] + s[i + 1..]) == multiset(s) - multiset{s[i]}
    ensures multiset(IdsOf(s)) == multiset(IdsOf(s[..i] + s[i + 1..])) + multiset(StepIds(s[i]))
  {
    hide *;
    var a, x, b := s[..i], s[i], s[i + 1..];
    assert s == a + ([x] + b);
    IdsConcat(a, [x] + b);
    IdsConcat([x], b);
    IdsConcat(a, b);
    IdsOne(x);
    assert multiset(IdsOf(s)) == multiset(IdsOf(a)) + (multiset(StepIds(x)) + multiset(IdsOf(b)));
  }

  lemma {:induction false} IdsIgnoreOrder(s: seq<Workflow>, t: seq<Workflow>)
    requires multiset(s) == multiset(t)
    ensures multiset(IdsOf(s)) == multiset(IdsOf(t))
    decreases |s|
  {
    hide *;
    SameLength(s, t);
    if s == [] {
      assert s == t;
    } else {
      var x := s[0];
      assert x in multiset(t);
      var i :| 0 <= i < |t| && t[i] == x;
      IdsWithout(s, 0);
      IdsWithout(t, i);
      IdsIgnoreOrder(s[..0] + s[1..], t[..i] + t[i + 1..]);
    }
  }

  lemma SortedMembers(m: Module)
    ensures forall w :: w in SortBy(SourceCode, m.workflows) <==> w in m.workflows
  {
    assert forall w :: w in SortBy(SourceCode, m.workflows) <==> w in multiset(SortBy(SourceCode, m.workflows));
    assert forall w :: w in m.workflows <==> w in multiset(m.workflows);
  }

  /** The IR of an accepted tree, workflow by workflow in the order of codes. */
  lemma BuiltIr(m: Module)
    requires AstCodes(m) == []
    ensures BuildIr(m).Ok? <==> forall w :: w in m.workflows ==> |w.steps| <= MAX_STEPS
    ensures BuildIr(m).Ok? ==>
              var sorted := SortBy(SourceCode, m.workflows);
              && |BuildIr(m).value.workflows| == |sorted|
              && (forall i :: 0 <= i < |sorted| ==> BuiltAs(sorted[i], BuildIr(m).value.workflows[i]))
              && (ValidateIr(BuildIr(m).value.workflows).None? <==> NoRepeat(IdsOf(m.workflows)))
  {
    var sorted := SortBy(SourceCode, m.workflows);
    hide DomainsCodes, PoliciesCodes, HeadCodes, BuildWorkflows, ValidateIr, ActionsOf, NoRepeat, BuiltAs;
    WorkflowsChecked(m.workflows);
    SortedMembers(m);
    BuiltWorkflows(sorted);
    if BuildIr(m).Ok? {
      ValidateIff(sorted, BuildIr(m).value.workflows);
      BuiltAllIds(sorted, BuildIr(m).value.workflows);
      IdsIgnoreOrder(sorted, m.workflows);
      NoRepeatIgnoresOrder(IdsOf(sorted), IdsOf(m.workflows));
    }
  }

  lemma NoRepeatIgnoresOrder(s: seq<string>, t: seq<string>)
    requires multiset(s) == multiset(t)
    ensures NoRepeat(s) <==> NoRepeat(t)
  {
    if NoRepeat(s) { DistinctTransfers(Itself, s, t); }
    if NoRepeat(t) { DistinctTransfers(Itself, t, s); }
  }
}
