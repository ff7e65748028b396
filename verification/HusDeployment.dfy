/** From the compiler to the runtime: a compiled, activated plan can be executed step by step. */
module HusDeployment {
  import opened HusAst
  import opened HusCompiler
  import opened HusPlanAgreement
  import opened HusPlanner
  import opened HusRegistry
  import opened Outcomes
  import opened Sorting
  import R = HusRuntime

  function Stored(s: PlanStepOut): R.PlanStep { R.PlanStep(s.action, s.read, s.idempotent) }

  /** `_plan_steps`: a later step replaces an earlier one of the same id. */
  function StepMap(steps: map<string, R.PlanStep>, more: seq<PlanStepOut>): map<string, R.PlanStep> {
    if more == [] then steps
    else
      var s := more[|more| - 1];
      StepMap(steps, more[..|more| - 1])[s.id := Stored(s)]
  }

  function PlanSteps(plan: seq<PlanWorkflow>): map<string, R.PlanStep> {
    if plan == [] then map[] else StepMap(PlanSteps(plan[..|plan| - 1]), plan[|plan| - 1].steps)
  }

  function OutId(s: PlanStepOut): string { s.id }

  function PlanIds(plan: seq<PlanWorkflow>): seq<string> {
    if plan == [] then [] else PlanIds(plan[..|plan| - 1]) + MapSeq(OutId, plan[|plan| - 1].steps)
  }

  lemma {:induction false} StepMapFinds(steps: map<string, R.PlanStep>, more: seq<PlanStepOut>, id: string)
    requires NoRepeat(MapSeq(OutId, more))
    ensures forall k :: 0 <= k < |more| && more[k].id == id ==>
              id in StepMap(steps, more) && StepMap(steps, more)[id] == Stored(more[k])
    ensures id !in MapSeq(OutId, more) ==>
              (id in StepMap(steps, more) <==> id in steps) && (id in steps ==> StepMap(steps, more)[id] == steps[id])
  {
    if more != [] {
      var n := |more| - 1;
      var ids := MapSeq(OutId, more);
      assert ids == MapSeq(OutId, more[..n]) + [more[n].id];
      NoRepeatConcat(MapSeq(OutId, more[..n]), [more[n].id]);
      hide NoRepeat;
      StepMapFinds(steps, more[..n], id);
      forall k | 0 <= k < n ensures more[k].id != more[n].id { assert MapSeq(OutId, more[..n])[k] == more[k].id; }
    }
  }

  /** With distinct ids every step of the plan is found under its id. */
  lemma {:induction false} PlanStepsFind(plan: seq<PlanWorkflow>, i: nat, k: nat)
    requires NoRepeat(PlanIds(plan)) && i < |plan| && k < |plan[i].steps|
    ensures plan[i].steps[k].id in PlanSteps(plan) && PlanSteps(plan)[plan[i].steps[k].id] == Stored(plan[i].steps[k])
    ensures plan[i].steps[k].id in PlanIds(plan)
  {
    var n := |plan| - 1;
    var s, last := plan[i].steps[k], MapSeq(OutId, plan[n].steps);
    NoRepeatConcat(PlanIds(plan[..n]), last);
    hide NoRepeat, StepMap;
    StepMapFinds(PlanSteps(plan[..n]), plan[n].steps, s.id);
    if i < n {
      PlanStepsFind(plan[..n], i, k);
    } else {
      assert last[k] == s.id;
    }
  }

  lemma {:induction false} PlanIdsAreIrIds(plan: seq<PlanWorkflow>, irs: seq<IRWorkflow>)
    requires |plan| == |irs| && forall i :: 0 <= i < |irs| ==> SameWorkflow(plan[i], irs[i])
    ensures PlanIds(plan) == IrIds(irs)
  {
    hide SameWorkflow;
    if irs != [] {
      var n := |irs| - 1;
      PlanIdsAreIrIds(plan[..n], irs[..n]);
      SameIds(plan[n], irs[n]);
    }
  }

  lemma SameIds(p: PlanWorkflow, w: IRWorkflow)
    requires SameWorkflow(p, w)
    ensures MapSeq(OutId, p.steps) == MapSeq(IrId, w.steps)
  {
    forall k | 0 <= k < |p.steps| ensures p.steps[k].id == w.steps[k].id { assert SameStep(p.steps[k], w.steps[k]); }
  }

  /** The compilation record of a contract, once it is active. */
  function Activated(c: Contract, tenant: int, planHash: R.Digest): R.Compilation {
    R.Compilation(tenant, R.Active, planHash, PlanSteps(c.plan))
  }

  lemma PlanStepRegistered(w: Workflow, k: nat)
    requires StepsCodes(w.steps) == [] && k < |w.steps|
    ensures Registered(PlanFor(w).steps[k].action) && PlanFor(w).steps[k].idempotent == !PlanFor(w).steps[k].read
  {
    StepsChecked(w.steps);
    var s := w.steps[k];
    assert s in w.steps;
    assert PlanFor(w).steps[k] == PlanStepOf(w.code, ResolveStep(LowerStep(s)));
    hide Split, IsRead, Allows;
  }

  lemma PlanIsRegistered(m: Module, i: nat, k: nat)
    requires AstCodes(m) == [] && i < |ContractOf(AstToSpec(m)).plan| && k < |ContractOf(AstToSpec(m)).plan[i].steps|
    ensures var s := ContractOf(AstToSpec(m)).plan[i].steps[k];
            Registered(s.action) && s.idempotent == !s.read
  {
    PlanFromTree(m);
    SortedMembers(m);
    WorkflowsCodesEmpty(m);
    WorkflowsChecked(m.workflows);
    var w := SortBy(SourceCode, m.workflows)[i];
    assert w in m.workflows && ContractOf(AstToSpec(m)).plan[i] == PlanFor(w);
    hide *;
    PlanForLength(w);
    PlanStepRegistered(w, k);
  }

  lemma PlanForLength(w: Workflow)
    ensures |PlanFor(w).steps| == |w.steps|
  {
  }

  lemma WorkflowsCodesEmpty(m: Module)
    requires AstCodes(m) == []
    ensures WorkflowsCodes(m.workflows) == []
  {
    hide DomainsCodes, WorkflowsCodes, PoliciesCodes, HeadCodes;
  }

  /** Main result: every step of a compiled and activated plan can be authorized, under its own id and
      with its own action, given an approval reference where the step is not a read. */
  lemma EveryStepAuthorizes(m: Module, st: R.State, tenant: int, id: string, planHash: R.Digest, i: nat, k: nat,
                            actor: string, approvalRef: Option<string>, key: Option<string>, args: string)
    requires ParserBuilt(m) && CompileAst(m).Ok? && i < |CompileAst(m).value.contract.plan|
    requires k < |CompileAst(m).value.contract.plan[i].steps|
    requires id in st.compilations && st.compilations[id] == Activated(CompileAst(m).value.contract, tenant, planHash)
    requires !CompileAst(m).value.contract.plan[i].steps[k].read ==> R.Given(approvalRef).Some?
    ensures var s := CompileAst(m).value.contract.plan[i].steps[k];
            var ctx := R.Authorize(st, tenant, actor, id, s.id, approvalRef, key, args);
            ctx.Some? && ctx.value.action == s.action && ctx.value.step == s.id && ctx.value.planHash == planHash
  {
    hide *;
    var c := CompileAst(m).value;
    CompiledParts(m);
    PlansAgree(m);
    PlanIdsAreIrIds(c.contract.plan, c.ir.workflows);
    IrIdsDistinct(m);
    PlanStepsFind(c.contract.plan, i, k);
    PlanIsRegistered(m, i, k);
    ActivatedFields(c.contract, tenant, planHash);
    Authorizes(st, tenant, id, c.contract.plan[i].steps[k], actor, approvalRef, key, args);
  }

  lemma ActivatedFields(c: Contract, tenant: int, planHash: R.Digest)
    ensures var a := Activated(c, tenant, planHash);
            a.tenant == tenant && a.status == R.Active && a.planHash == planHash && a.steps == PlanSteps(c.plan)
  {
  }

  lemma Authorizes(st: R.State, tenant: int, id: string, s: PlanStepOut, actor: string, approvalRef: Option<string>,
                   key: Option<string>, args: string)
    requires id in st.compilations && st.compilations[id].tenant == tenant && st.compilations[id].status == R.Active
    requires s.id in st.compilations[id].steps && st.compilations[id].steps[s.id] == Stored(s)
    requires Registered(s.action) && s.idempotent == !s.read && (!s.read ==> R.Given(approvalRef).Some?)
    ensures var ctx := R.Authorize(st, tenant, actor, id, s.id, approvalRef, key, args);
            ctx.Some? && ctx.value.action == s.action && ctx.value.step == s.id
            && ctx.value.planHash == st.compilations[id].planHash
  {
    hide Registered;
  }

  lemma IrIdsDistinct(m: Module)
    requires ParserBuilt(m) && CompileAst(m).Ok?
    ensures NoRepeat(IrIds(CompileAst(m).value.ir.workflows))
  {
    hide *;
    CompiledParts(m);
    CompilesIff(m);
    BuiltIr(m);
    var sorted := SortBy(SourceCode, m.workflows);
    BuiltAllIds(sorted, CompileAst(m).value.ir.workflows);
    IdsIgnoreOrder(sorted, m.workflows);
    NoRepeatIgnoresOrder(IdsOf(sorted), IdsOf(m.workflows));
  }
}
