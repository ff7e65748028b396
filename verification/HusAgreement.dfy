/** The two validators of the HUS compiler agree on every tree that the parser builds. */
module HusAgreement {
  import opened HusAst
  import opened HusCompiler
  import opened HusRegistry
  import opened Outcomes

  function CodeOf(d: Diagnostic): string { d.code }

  function Codes(d: seq<Diagnostic>): seq<string> { MapSeq(CodeOf, d) }

  lemma CodesConcat(a: seq<Diagnostic>, b: seq<Diagnostic>)
    ensures Codes(a + b) == Codes(a) + Codes(b)
  {
  }

  lemma CodesLabelled(stage: string, codes: seq<string>)
    ensures Codes(Labelled(stage, codes)) == codes
  {
  }

  lemma MapPrefix<T, U>(f: T -> U, s: seq<T>, n: nat)
    requires n <= |s|
    ensures MapSeq(f, s)[..n] == MapSeq(f, s[..n])
  {
  }

  lemma DomainAgrees(d: Domain, seen: set<string>)
    requires d.code != ""
    ensures Codes(DomainDiags(LowerDomain(d), seen)) == DomainCodes(d, seen)
  {
    hide CapabilityCodes;
    CodesLabelled("Resolver", CapabilityCodes(d.engine, d.capabilities));
    var low := LowerDomain(d);
    var a := if d.code in seen then [Diagnostic("Validator", "duplicate_domain")] else [];
    var b := if d.engine !in ENGINES then [Diagnostic("Resolver", "unsupported_engine")] else [];
    var c := Labelled("Resolver", CapabilityCodes(d.engine, d.capabilities));
    assert DomainDiags(low, seen) == a + b + c;
    CodesConcat(a + b, c);
    CodesConcat(a, b);
  }

  lemma DomainsSeenAgree(domains: seq<Domain>)
    requires forall d :: d in domains ==> d.code != ""
    ensures DomainsIn(MapSeq(LowerDomain, domains)) == CodesOf(domains)
  {
    var low := MapSeq(LowerDomain, domains);
    forall c | c in CodesOf(domains) ensures c in DomainsIn(low) {
      var d :| d in domains && d.code == c;
      var i :| 0 <= i < |domains| && domains[i] == d;
      assert low[i] in low;
    }
    forall c | c in DomainsIn(low) ensures c in CodesOf(domains) {
      var x :| x in low && x.DomainIn? && !Blank(x.code) && x.code.value == c;
      var i :| 0 <= i < |low| && low[i] == x;
      assert domains[i] in domains;
    }
  }

  lemma {:induction false} DomainsAgree(domains: seq<Domain>)
    requires forall d :: d in domains ==> d.code != ""
    ensures Codes(DomainsDiags(MapSeq(LowerDomain, domains))) == DomainsCodes(domains)
  {
    hide DomainDiags, DomainCodes, DomainsIn, CodesOf, LowerDomain;
    if domains != [] {
      var n, low := |domains| - 1, MapSeq(LowerDomain, domains);
      MapPrefix(LowerDomain, domains, n);
      DomainsAgree(domains[..n]);
      DomainsSeenAgree(domains[..n]);
      DomainAgrees(domains[n], CodesOf(domains[..n]));
      CodesConcat(DomainsDiags(low[..n]), DomainDiags(low[n], DomainsIn(low[..n])));
    }
  }

  lemma StepAgrees(s: StepDecl, seen: set<string>)
    requires s.code != "" && s.action != ""
    ensures Codes(StepDiags(LowerStep(s), seen))
            == (if s.code in seen then ["duplicate_step"] else []) + ActionCodes(s.action)
  {
    hide ActionCodes;
    CodesLabelled("Resolver", ActionCodes(s.action));
    var a := if s.code in seen then [Diagnostic("Validator", "duplicate_step")] else [];
    var b := Labelled("Resolver", ActionCodes(s.action));
    assert StepDiags(LowerStep(s), seen) == a + b;
    CodesConcat(a, b);
  }

  lemma StepsSeenAgree(steps: seq<StepDecl>)
    requires forall s :: s in steps ==> s.code != "" && s.action != ""
    ensures StepsIn(MapSeq(LowerStep, steps)) == StepsSeen(steps)
  {
    var low := MapSeq(LowerStep, steps);
    forall c | c in StepsSeen(steps) ensures c in StepsIn(low) {
      var s :| s in steps && s.code == c;
      var i :| 0 <= i < |steps| && steps[i] == s;
      assert low[i] in low && NamedStep(low[i]);
    }
    forall c | c in StepsIn(low) ensures c in StepsSeen(steps) {
      var x :| x in low && NamedStep(x) && x.code.value == c;
      var i :| 0 <= i < |low| && low[i] == x;
      assert steps[i] in steps;
    }
  }

  lemma {:induction false} StepsAgree(steps: seq<StepDecl>)
    requires forall s :: s in steps ==> s.code != "" && s.action != ""
    ensures Codes(StepsDiags(MapSeq(LowerStep, steps))) == StepsCodes(steps)
  {
    hide StepDiags, ActionCodes, StepsIn, StepsSeen, LowerStep;
    if steps != [] {
      var n, low := |steps| - 1, MapSeq(LowerStep, steps);
      MapPrefix(LowerStep, steps, n);
      StepsAgree(steps[..n]);
      StepsSeenAgree(steps[..n]);
      StepAgrees(steps[n], StepsSeen(steps[..n]));
      CodesConcat(StepsDiags(low[..n]), StepDiags(low[n], StepsIn(low[..n])));
    }
  }

  lemma WorkflowAgrees(w: Workflow, seen: set<string>)
    requires WorkflowBuilt(w)
    ensures Codes(WorkflowDiags(LowerWorkflow(w), seen))
            == (if w.code in seen then ["duplicate_workflow"] else []) + StepsCodes(w.steps)
  {
    hide StepsDiags, StepsCodes;
    StepsAgree(w.steps);
    var a := if w.code in seen then [Diagnostic("Validator", "duplicate_workflow")] else [];
    var b := StepsDiags(MapSeq(LowerStep, w.steps));
    assert WorkflowDiags(LowerWorkflow(w), seen) == a + b;
    CodesConcat(a, b);
  }

  lemma WorkflowsSeenAgree(workflows: seq<Workflow>)
    requires forall w :: w in workflows ==> w.code != ""
    ensures WorkflowsIn(MapSeq(LowerWorkflow, workflows)) == WorkflowsSeen(workflows)
  {
    var low := MapSeq(LowerWorkflow, workflows);
    forall c | c in WorkflowsSeen(workflows) ensures c in WorkflowsIn(low) {
      var w :| w in workflows && w.code == c;
      var i :| 0 <= i < |workflows| && workflows[i] == w;
      assert low[i] in low;
    }
    forall c | c in WorkflowsIn(low) ensures c in WorkflowsSeen(workflows) {
      var x :| x in low && x.WorkflowIn? && !Blank(x.code) && x.code.value == c;
      var i :| 0 <= i < |low| && low[i] == x;
      assert workflows[i] in workflows;
    }
  }

  lemma {:induction false} WorkflowsAgree(workflows: seq<Workflow>)
    requires forall w :: w in workflows ==> WorkflowBuilt(w)
    ensures Codes(WorkflowsDiags(MapSeq(LowerWorkflow, workflows))) == WorkflowsCodes(workflows)
  {
    assert forall w :: w in workflows ==> w.code != "";
    hide WorkflowDiags, StepsCodes, WorkflowsIn, WorkflowsSeen, LowerWorkflow, WorkflowBuilt;
    if workflows != [] {
      var n, low := |workflows| - 1, MapSeq(LowerWorkflow, workflows);
      MapPrefix(LowerWorkflow, workflows, n);
      WorkflowsAgree(workflows[..n]);
      WorkflowsSeenAgree(workflows[..n]);
      WorkflowAgrees(workflows[n], WorkflowsSeen(workflows[..n]));
      CodesConcat(WorkflowsDiags(low[..n]), WorkflowDiags(low[n], WorkflowsIn(low[..n])));
    }
  }

  lemma {:induction false} PoliciesAgree(policies: seq<Policy>)
    ensures LowerPolicies(policies).Keys == set p | p in policies :: p.name
    ensures forall k :: k in LowerPolicies(policies) ==> LowerPolicies(policies)[k].Given?
    ensures PoliciesCodes(policies) == [] <==> forall p :: p in policies ==> p.name in POLICIES
  {
    if policies != [] {
      var n := |policies| - 1;
      PoliciesAgree(policies[..n]);
      assert policies == policies[..n] + [policies[n]];
      assert forall p :: p in policies <==> p in policies[..n] || p == policies[n];
    }
  }

  lemma PolicyDiagsAgree(m: Module)
    ensures PolicyDiags(AstToSpec(m)) == [] <==> PoliciesCodes(m.policies) == []
    ensures forall d :: d in PolicyDiags(AstToSpec(m)) ==> d.code == "unknown_policy"
  {
    hide LowerPolicies, PoliciesCodes, LowerMetadata, LowerDomain, LowerWorkflow;
    PoliciesAgree(m.policies);
    var keys := LowerPolicies(m.policies).Keys;
    assert PolicyDiags(AstToSpec(m)) == Repeat("Validator", "unknown_policy", |keys - POLICIES|);
    assert |keys - POLICIES| == 0 <==> keys - POLICIES == {};
    assert (forall p :: p in m.policies ==> p.name in POLICIES) <==> keys - POLICIES == {} by {
      if exists p :: p in m.policies && p.name !in POLICIES {
        var p :| p in m.policies && p.name !in POLICIES;
        assert p.name in keys - POLICIES;
      }
    }
    RepeatsCode("Validator", "unknown_policy", |keys - POLICIES|);
  }

  lemma {:induction false} RepeatsCode(stage: string, code: string, n: nat)
    ensures forall d :: d in Repeat(stage, code, n) ==> d.code == code
  {
    if n > 0 { RepeatsCode(stage, code, n - 1); }
  }

  /** Main result: on a tree of the parser the two validators report the same codes in the same order for
      domains and workflows, and both or neither object to the policies. */
  lemma ValidatorsReportAlike(m: Module)
    requires ParserBuilt(m)
    ensures Codes(DomainsDiags(ListOf(AstToSpec(m).domains))) == DomainsCodes(m.domains)
    ensures Codes(WorkflowsDiags(ListOf(AstToSpec(m).workflows))) == WorkflowsCodes(m.workflows)
    ensures PolicyDiags(AstToSpec(m)) == [] <==> PoliciesCodes(m.policies) == []
    ensures HeadDiags(AstToSpec(m)) == []
    ensures SpecDiags(AstToSpec(m))
            == DomainsDiags(ListOf(AstToSpec(m).domains)) + WorkflowsDiags(ListOf(AstToSpec(m).workflows))
               + PolicyDiags(AstToSpec(m))
  {
    hide DomainsDiags, WorkflowsDiags, DomainsCodes, WorkflowsCodes, PoliciesCodes, LowerPolicies, LowerMetadata,
         PolicyDiags;
    DomainsAgree(m.domains);
    WorkflowsAgree(m.workflows);
    PolicyDiagsAgree(m);
  }

  /** Main result: the semantic validator accepts exactly when the version is 1.0 and the contract
      validator has nothing to say about the lowered tree. */
  lemma ValidatorsAgree(m: Module)
    requires ParserBuilt(m)
    ensures AstCodes(m) == [] <==> m.version == "1.0" && SpecDiags(AstToSpec(m)) == []
    ensures m.version == "1.0" ==> (CompileSpec(AstToSpec(m)).Ok? <==> AstCodes(m) == [])
  {
    ValidatorsReportAlike(m);
    hide DomainsDiags, WorkflowsDiags, DomainsCodes, WorkflowsCodes, PoliciesCodes, PolicyDiags, AstToSpec, SpecDiags,
         ContractOf;
    var d, w := DomainsDiags(ListOf(AstToSpec(m).domains)), WorkflowsDiags(ListOf(AstToSpec(m).workflows));
    assert |Codes(d)| == |d| && |Codes(w)| == |w|;
  }
}
