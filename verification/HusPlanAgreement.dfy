/** The source compiler: when it fails after validation, and what its two plans have in common. */
module HusPlanAgreement {
  import opened HusAgreement
  import opened HusAst
  import opened HusCompiler
  import opened HusContract
  import opened HusPlanner
  import opened HusRegistry
  import opened Outcomes
  import opened Sorting

  /** Main result: for a tree of the parser that the semantic validator accepts, compilation can fail in
      two ways only: a workflow of more than 128 steps, or two steps with the same id. */
  lemma CompilesIff(m: Module)
    requires ParserBuilt(m)
    ensures CompileAst(m).Ok? <==>
              && AstCodes(m) == []
              && (forall w :: w in m.workflows ==> |w.steps| <= MAX_STEPS)
              && NoRepeat(IdsOf(m.workflows))
    ensures CompileAst(m).Err? && CompileAst(m).error.Invalid? ==> false
  {
    ValidatorsAgree(m);
    if AstCodes(m) == [] {
      VersionIsOne(m);
      BuiltIr(m);
    }
    hide AstCodes, CompileSpec, AstToSpec, BuildIr, ValidateIr, NoRepeat, IdsOf;
  }

  lemma VersionIsOne(m: Module)
    requires AstCodes(m) == []
    ensures m.version == "1.0"
  {
    hide DomainsCodes, WorkflowsCodes, PoliciesCodes;
  }

  // ---------------------------------------------------------------- the IR ignores the order of workflows

  lemma {:induction false} WorkflowCodesDistinct(workflows: seq<Workflow>)
    requires WorkflowsCodes(workflows) == []
    ensures DistinctKeys(SourceCode, workflows)
  {
    hide StepsCodes;
    if workflows != [] {
      var n := |workflows| - 1;
      WorkflowCodesDistinct(workflows[..n]);
      DistinctSnoc(SourceCode, workflows[..n], workflows[n]);
      assert workflows == workflows[..n] + [workflows[n]];
      hide DistinctKeys, WorkflowsCodes;
    }
  }

  /** Declaring the workflows of an accepted tree in another order gives the same IR. */
  lemma IrIgnoresOrder(m: Module, n: Module)
    requires WorkflowsCodes(m.workflows) == [] && multiset(m.workflows) == multiset(n.workflows)
    requires m.version == n.version
    ensures BuildIr(m) == BuildIr(n)
  {
    WorkflowCodesDistinct(m.workflows);
    SortIgnoresOrder(SourceCode, m.workflows, n.workflows);
    hide BuildWorkflows, ActionsOf, WorkflowsCodes;
  }

  // ---------------------------------------------------------------- the two plans

  /** A workflow of the contract's plan, straight from the tree. */
  function PlanFor(w: Workflow): PlanWorkflow { PlanOf(ResolveWorkflow(LowerWorkflow(w))) }

  lemma InsertMap<T(!new), U(!new)>(key: T -> string, f: T -> U, outKey: U -> string, s: seq<T>, x: T)
    requires forall y :: outKey(f(y)) == key(y)
    ensures InsertBy(outKey, MapSeq(f, s), f(x)) == MapSeq(f, InsertBy(key, s, x))
  {
    if s != [] {
      var n := |s| - 1;
      assert MapSeq(f, s)[..n] == MapSeq(f, s[..n]);
      InsertMap(key, f, outKey, s[..n], x);
      if Less(key(x), key(s[n])) {
        assert MapSeq(f, InsertBy(key, s[..n], x) + [s[n]]) == MapSeq(f, InsertBy(key, s[..n], x)) + [f(s[n])];
      } else {
        assert MapSeq(f, s + [x]) == MapSeq(f, s) + [f(x)];
      }
    }
  }

  /** Sorting and translating commute when the translation keeps the key. */
  lemma {:induction false} SortMap<T(!new), U(!new)>(key: T -> string, f: T -> U, outKey: U -> string, s: seq<T>)
    requires forall y :: outKey(f(y)) == key(y)
    ensures SortBy(outKey, MapSeq(f, s)) == MapSeq(f, SortBy(key, s))
  {
    if s != [] {
      var n := |s| - 1;
      SortMap(key, f, outKey, s[..n]);
      assert MapSeq(f, s)[..n] == MapSeq(f, s[..n]);
      InsertMap(key, f, outKey, SortBy(key, s[..n]), s[n]);
    }
  }

  /** The contract's plan is the tree's workflows in the order of their codes. */
  lemma PlanFromTree(m: Module)
    ensures ContractOf(AstToSpec(m)).plan == MapSeq(PlanFor, SortBy(SourceCode, m.workflows))
  {
    assert ContractOf(AstToSpec(m)).plan
           == SortBy(PlanCode, MapSeq(PlanOf, MapSeq(ResolveWorkflow, MapSeq(LowerWorkflow, m.workflows))));
    assert MapSeq(PlanOf, MapSeq(ResolveWorkflow, MapSeq(LowerWorkflow, m.workflows))) == MapSeq(PlanFor, m.workflows);
    forall w ensures PlanCode(PlanFor(w)) == SourceCode(w) { PlanForCode(w); }
    hide ContractOf, PlanFor, PlanOf, ResolveWorkflow, LowerWorkflow, SortBy;
    SortMap(SourceCode, PlanFor, PlanCode, m.workflows);
  }

  lemma PlanForCode(w: Workflow)
    ensures PlanCode(PlanFor(w)) == SourceCode(w)
  {
  }

  predicate SameStep(p: PlanStepOut, s: IRStep) {
    p.id == s.id && p.action == s.action && (p.read <==> s.risk == "read") && p.idempotent == s.idempotent
  }

  predicate SameWorkflow(p: PlanWorkflow, w: IRWorkflow) {
    && p.code == w.code && |p.steps| == |w.steps|
    && (forall k :: 0 <= k < |p.steps| ==> SameStep(p.steps[k], w.steps[k]))
    && forall k :: 0 <= k < |w.steps| ==> w.steps[k].dependsOn == if k == 0 then [] else [w.steps[k - 1].id]
  }

  lemma RiskIsRead(a: Action)
    ensures RiskOf(a) == "read" <==> IsRead(a)
    ensures RiskOf(a) == if IsRead(a) then "read" else if a.capability in {"moderate", "admin"} then a.capability
                         else "mutation"
  {
    hide IsRead;
    assert |"read"| == 4 && |"moderate"| == 8 && |"admin"| == 5 && |"mutation"| == 8;
  }

  lemma StepsCorrespond(w: Workflow, ir: IRWorkflow, k: nat)
    requires BuiltAs(w, ir) && k < |w.steps|
    ensures SameStep(PlanFor(w).steps[k], ir.steps[k])
    ensures ir.steps[k].dependsOn == if k == 0 then [] else [ir.steps[k - 1].id]
  {
    OneStepCorresponds(w, ir, k);
    if k > 0 { StepBefore(w, ir, k); }
    hide ActionOf, IsRead, RiskOf, SameStep, PlanFor;
  }

  lemma OneStepCorresponds(w: Workflow, ir: IRWorkflow, k: nat)
    requires BuiltAs(w, ir) && k < |w.steps|
    ensures SameStep(PlanFor(w).steps[k], ir.steps[k])
  {
    var s := w.steps[k];
    assert PlanFor(w).steps[k] == PlanStepOf(w.code, ResolveStep(LowerStep(s)));
    assert ir.steps[k] == IRStepOf(w.code, s, PreviousId(w.code, w.steps[..k]));
    RiskIsRead(ActionOf(s.action));
    hide ActionOf, IsRead, RiskOf, BuiltAs, BuiltFrom, PlanFor, PreviousId;
  }

  lemma StepBefore(w: Workflow, ir: IRWorkflow, k: nat)
    requires BuiltAs(w, ir) && 0 < k < |w.steps|
    ensures PreviousId(w.code, w.steps[..k]) == Some(ir.steps[k - 1].id)
  {
    assert ir.steps[k - 1] == IRStepOf(w.code, w.steps[k - 1], PreviousId(w.code, w.steps[..k - 1]));
    assert w.steps[..k][|w.steps[..k]| - 1] == w.steps[k - 1];
    hide ActionOf, IsRead, RiskOf;
  }

  lemma WorkflowsCorrespond(w: Workflow, ir: IRWorkflow)
    requires BuiltAs(w, ir)
    ensures SameWorkflow(PlanFor(w), ir)
  {
    assert |PlanFor(w).steps| == |ir.steps| == |w.steps|;
    forall k | 0 <= k < |w.steps|
      ensures SameStep(PlanFor(w).steps[k], ir.steps[k])
      ensures ir.steps[k].dependsOn == if k == 0 then [] else [ir.steps[k - 1].id]
    {
      StepsCorrespond(w, ir, k);
    }
    hide SameStep, BuiltFrom;
  }

  /** Main result: the contract's execution plan and the IR of a compiled tree list the same steps in the
      same order, with the same action, the same read class and the same idempotency flag; and every IR
      step depends on the one before it, and on nothing else. */
  lemma PlansAgree(m: Module)
    requires ParserBuilt(m) && CompileAst(m).Ok?
    ensures var c := CompileAst(m).value;
            |c.contract.plan| == |c.ir.workflows|
            && forall i :: 0 <= i < |c.ir.workflows| ==> SameWorkflow(c.contract.plan[i], c.ir.workflows[i])
  {
    hide *;
    CompiledParts(m);
    PlanFromTree(m);
    BuiltIr(m);
    var c, sorted := CompileAst(m).value, SortBy(SourceCode, m.workflows);
    assert forall i :: 0 <= i < |sorted| ==> MapSeq(PlanFor, sorted)[i] == PlanFor(sorted[i]);
    forall i | 0 <= i < |c.ir.workflows| ensures SameWorkflow(c.contract.plan[i], c.ir.workflows[i]) {
      WorkflowsCorrespond(sorted[i], c.ir.workflows[i]);
    }
  }

  lemma CompiledParts(m: Module)
    requires CompileAst(m).Ok?
    ensures AstCodes(m) == [] && CompileAst(m).value.contract == ContractOf(AstToSpec(m))
    ensures BuildIr(m) == Ok(CompileAst(m).value.ir)
  {
    hide AstCodes, SpecDiags, ContractOf, AstToSpec, BuildIr, ValidateIr;
  }

  // ---------------------------------------------------------------- steps that share an id

  /** A dot can move from the step's code to the workflow's without changing the id. */
  lemma DotsCollide(c: string, d: string, e: string)
    ensures StepId(c, d + "." + e) == StepId(c + "." + d, e)
  {
    assert c + "." + (d + "." + e) == c + "." + d + "." + e;
  }

  lemma {:induction false} DotAfter(w: string, rest: string)
    requires '.' !in w
    ensures DotAt(w + "." + rest) == |w|
  {
    var s := w + "." + rest;
    if w != "" {
      assert w == [w[0]] + w[1..] && s[1..] == w[1..] + "." + rest;
      DotAfter(w[1..], rest);
    }
  }

  lemma IdSplits(w: string, s: string, v: string, t: string)
    requires '.' !in w && '.' !in v && StepId(w, s) == StepId(v, t)
    ensures w == v && s == t
  {
    DotAfter(w, s);
    DotAfter(v, t);
    var id := StepId(w, s);
    assert id[..|w|] == w && id[..|v|] == v && id[|w| + 1..] == s && id[|v| + 1..] == t;
  }

  lemma {:induction false} StepCodesDistinct(w: Workflow, steps: seq<StepDecl>)
    requires StepsCodes(steps) == [] && '.' !in w.code
    ensures NoRepeat(MapSeq((s: StepDecl) => StepId(w.code, s.code), steps))
  {
    hide ActionCodes;
    var ids := MapSeq((s: StepDecl) => StepId(w.code, s.code), steps);
    forall i, j | 0 <= i < j < |ids| ensures Itself(ids[i]) != Itself(ids[j]) {
      StepCodeAt(steps, i, j);
      if ids[i] == ids[j] { IdSplits(w.code, steps[i].code, w.code, steps[j].code); }
    }
  }

  lemma {:induction false} StepCodeAt(steps: seq<StepDecl>, i: nat, j: nat)
    requires StepsCodes(steps) == [] && i < j < |steps|
    ensures steps[i].code != steps[j].code
  {
    hide ActionCodes;
    var n := |steps| - 1;
    if j < n {
      StepCodeAt(steps[..n], i, j);
    } else {
      assert steps[i] in steps[..n];
    }
  }

  lemma {:induction false} IdsComeFrom(workflows: seq<Workflow>, id: string)
    requires id in IdsOf(workflows)
    ensures exists w, s :: w in workflows && s in w.steps && id == StepId(w.code, s.code)
  {
    var n := |workflows| - 1;
    if id in IdsOf(workflows[..n]) {
      IdsComeFrom(workflows[..n], id);
      var w, s :| w in workflows[..n] && s in w.steps && id == StepId(w.code, s.code);
      assert w in workflows;
    } else {
      var k :| 0 <= k < |StepIds(workflows[n])| && StepIds(workflows[n])[k] == id;
      assert workflows[n].steps[k] in workflows[n].steps;
    }
  }

  /** Without dots in workflow codes, an accepted tree has no two steps with the same id. */
  lemma {:induction false} DotFreeIdsDistinct(workflows: seq<Workflow>)
    requires WorkflowsCodes(workflows) == [] && forall w :: w in workflows ==> '.' !in w.code
    ensures NoRepeat(IdsOf(workflows))
  {
    if workflows != [] {
      var n := |workflows| - 1;
      var init, last := workflows[..n], workflows[n];
      assert WorkflowsCodes(init) == [] && StepsCodes(last.steps) == [] && last.code !in WorkflowsSeen(init);
      hide WorkflowsCodes, StepsCodes, NoRepeat;
      DotFreeIdsDistinct(init);
      StepCodesDistinct(last, last.steps);
      forall x | x in IdsOf(init) ensures x !in StepIds(last) {
        if x in StepIds(last) {
          IdsComeFrom(init, x);
          var w, s :| w in init && s in w.steps && x == StepId(w.code, s.code);
          var k :| 0 <= k < |StepIds(last)| && StepIds(last)[k] == x;
          IdSplits(w.code, s.code, last.code, last.steps[k].code);
        }
      }
      NoRepeatConcat(IdsOf(init), StepIds(last));
    } else {
      NoRepeatNone();
    }
  }

  lemma NoRepeatNone()
    ensures NoRepeat([])
  {
  }

  // ---------------------------------------------------------------- the error of a repeated id

  /** The step validator objects to nothing but an id that it has seen, or that the workflow repeats. */
  lemma {:induction false} StepsError(workflow: string, decls: seq<StepDecl>, steps: seq<IRStep>, seen: set<string>)
    requires BuiltFrom(workflow, decls, steps) && CheckSteps(steps, seen).Some?
    ensures var e, ids := CheckSteps(steps, seen).value, MapSeq(IrId, steps);
            e.DuplicateStep? && e.id in ids && (e.id in seen || multiset(ids)[e.id] >= 2)
  {
    hide CheckStep, BuiltFrom, Ids;
    var n := |steps| - 1;
    var init, last := MapSeq(IrId, steps[..n]), steps[n].id;
    BuiltPrefix(workflow, decls, steps);
    IdsSnoc(steps);
    assert multiset(init + [last]) == multiset(init) + multiset{last};
    if CheckSteps(steps[..n], seen).Some? {
      StepsError(workflow, decls[..n], steps[..n], seen);
    } else {
      LastStepOk(workflow, decls, steps, seen + Ids(steps[..n]));
      IdsAreIds(steps[..n]);
    }
  }

  lemma {:induction false} PlanError(workflows: seq<Workflow>, irs: seq<IRWorkflow>)
    requires |workflows| == |irs| && (forall i :: 0 <= i < |irs| ==> BuiltAs(workflows[i], irs[i]))
    requires ValidateIr(irs).Some?
    ensures ValidateIr(irs).value.DuplicateStep? && multiset(IrIds(irs))[ValidateIr(irs).value.id] >= 2
  {
    var n := |irs| - 1;
    var init, ids := IrIds(irs[..n]), MapSeq(IrId, irs[n].steps);
    assert multiset(init + ids) == multiset(init) + multiset(ids);
    assert BuiltAs(workflows[n], irs[n]);
    if ValidateIr(irs[..n]).Some? {
      PlanError(workflows[..n], irs[..n]);
    } else {
      StepsError(workflows[n].code, workflows[n].steps, irs[n].steps, AllIds(irs[..n]));
      AllIdsAreIds(irs[..n]);
    }
    hide CheckSteps, BuiltAs, AllIds;
  }

  /** An accepted tree within the step limit that does not compile is refused for an id that two steps share. */
  lemma RefusedForRepeat(m: Module)
    requires ParserBuilt(m) && AstCodes(m) == [] && (forall w :: w in m.workflows ==> |w.steps| <= MAX_STEPS)
    requires CompileAst(m).Err?
    ensures var e := CompileAst(m).error;
            e.Unplannable? && e.error.DuplicateStep? && multiset(IdsOf(m.workflows))[e.error.id] >= 2
  {
    CompilesIff(m);
    BuiltIr(m);
    hide AstCodes, CompileSpec, AstToSpec, NoRepeat, IdsOf, BuiltAs;
    var sorted, irs := SortBy(SourceCode, m.workflows), BuildIr(m).value.workflows;
    if ValidateIr(irs).Some? {
      PlanError(sorted, irs);
      BuiltAllIds(sorted, irs);
      IdsIgnoreOrder(sorted, m.workflows);
    }
  }

  function OneStep(workflow: string, step: string): Workflow {
    Workflow(workflow, "manual", [StepDecl(step, "finance.read", false, NOWHERE)], None, true, NOWHERE)
  }

  /** Workflow `a.b` with step `c`, and workflow `a` with step `b.c`. */
  const DOTTED := Module("m", "1.0", Organization("o", "O", NOWHERE), [], [OneStep("a.b", "c"), OneStep("a", "b.c")],
                         [], [], NOWHERE)

  lemma FinanceReads()
    ensures "finance" in ENGINES && "finance.read" in CapabilitiesFor("finance")
  {
    var name := "finance";
    assert |name| == 7 && |"workflow"| == 8 && |"documents"| == 9 && |"marketplace"| == 11 && |"custom"| == 6;
  }

  lemma SplitsBack(engine: string, rest: string)
    requires '.' !in engine
    ensures var action := engine + "." + rest;
            '.' in action && Split(action) == Action(engine, rest) && EndsWith(action, "." + rest)
  {
    var action := engine + "." + rest;
    DotAfter(engine, rest);
    assert action[|engine|] == '.';
  }

  /** An engine without a dot is allowed each of its own capabilities by what follows the engine's name. */
  lemma OwnCapability(engine: string, rest: string)
    requires engine in ENGINES && '.' !in engine && engine + "." + rest in CapabilitiesFor(engine)
    ensures ActionCodes(engine + "." + rest) == []
  {
    SplitsBack(engine, rest);
    hide Split, EndsWith, CapabilitiesFor;
    assert Allows(engine, rest);
  }

  lemma ReadAllowed()
    ensures ActionCodes("finance.read") == []
  {
    FinanceReads();
    hide *;
    assert "finance" + "." + "read" == "finance.read";
    OwnCapability("finance", "read");
  }

  lemma DottedAccepted()
    ensures ParserBuilt(DOTTED) && AstCodes(DOTTED) == []
  {
    ReadAllowed();
    hide ActionCodes;
    var first, second := OneStep("a.b", "c"), OneStep("a", "b.c");
    assert StepsCodes(first.steps) == [] && StepsCodes(second.steps) == [];
    hide StepsCodes;
    assert DOTTED.workflows[..1] == [first];
    assert WorkflowsCodes([first]) == [];
  }

  lemma RefusedForPair(m: Module, id: string)
    requires ParserBuilt(m) && AstCodes(m) == [] && (forall w :: w in m.workflows ==> |w.steps| <= MAX_STEPS)
    requires IdsOf(m.workflows) == [id, id]
    ensures CompileSpec(AstToSpec(m)).Ok? && CompileAst(m) == Err(Unplannable(DuplicateStep(id)))
  {
    VersionIsOne(m);
    assert Itself([id, id][0]) == Itself([id, id][1]);
    assert !NoRepeat([id, id]);
    hide *;
    ValidatorsAgree(m);
    CompilesIff(m);
    RefusedForRepeat(m);
    assert CompileAst(m).error.error.id in multiset([id, id]);
  }

  /** The input on which it fails: the contract compiler accepts the tree, and compilation refuses it, because
      both steps have the id `a.b.c`. */
  lemma DottedIsRefused()
    ensures ParserBuilt(DOTTED) && CompileSpec(AstToSpec(DOTTED)).Ok?
    ensures CompileAst(DOTTED) == Err(Unplannable(DuplicateStep("a.b.c")))
  {
    hide *;
    DottedAccepted();
    DottedIds();
    RefusedForPair(DOTTED, "a.b.c");
  }

  lemma DottedIds()
    ensures IdsOf(DOTTED.workflows) == ["a.b.c", "a.b.c"]
    ensures forall w :: w in DOTTED.workflows ==> |w.steps| <= MAX_STEPS
  {
    var first, second := OneStep("a.b", "c"), OneStep("a", "b.c");
    IdsConcat([first], [second]);
    IdsOne(first);
    IdsOne(second);
    assert [first] + [second] == DOTTED.workflows;
    DotsCollide("a", "b", "c");
    assert StepId("a.b", "c") == "a.b.c" && StepId("a", "b.c") == "a.b.c";
    hide IdsOf;
    assert StepIds(first) == ["a.b.c"] && StepIds(second) == ["a.b.c"];
  }
}
