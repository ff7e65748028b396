/** From a source text to its contract and plan. */
module HusFrontEnd {
  import opened HusAst
  import opened HusCompiler
  import opened HusParser
  import opened HusPlanner
  import opened HusSyntax
  import opened Outcomes
  import opened Sorting
  import A = HusPlanAgreement
  import G = HusAgreement
  import L = HusLexer

  // ---------------------------------------------------------------- what the parser guarantees

  /** Names are not empty. */
  predicate Named(x: Token) { x.kind == "IDENT" || x.kind in NAMES ==> x.value != "" }

  lemma LexemeNamed(t: string, decode: L.Decoder, x: Token)
    requires t != "" && L.Scan(t, decode).Lexeme? && x.kind == L.Scan(t, decode).kind
    requires x.value == L.Scan(t, decode).value
    ensures Named(x)
  {
    hide L.NumberLength, L.IdentTail, L.StartsComment, L.LineLength;
    if L.IsPunctuation(t[0]) { assert |x.kind| == 1; }
  }

  lemma {:induction false} TokensNamed(source: string, i: nat, tokens: seq<Token>, decode: L.Decoder)
    requires i <= |source| && L.Tokenizes(source, i, tokens, decode)
    ensures forall x :: x in tokens ==> Named(x)
    decreases |tokens|
  {
    hide *;
    L.TokenizesUnfold(source, i, tokens, decode);
    if |tokens| == 1 {
      EofNamed(tokens[0]);
    } else {
      TokensNamed(source, tokens[0].end, tokens[1..], decode);
      TokenNamed(source, tokens[0], decode);
      assert tokens == [tokens[0]] + tokens[1..];
    }
  }

  lemma EofNamed(x: Token)
    requires x.kind == "EOF"
    ensures Named(x)
  {
  }

  lemma TokenNamed(source: string, x: Token, decode: L.Decoder)
    requires L.TokenAt(source, x, decode)
    ensures Named(x)
  {
    hide L.Scan, L.LineOf, L.ColumnOf, Named;
    LexemeNamed(source[x.start..], decode, x);
  }

  ghost predicate AllNamed(t: seq<Token>) { forall x :: x in t ==> Named(x) }

  lemma HeadNamed(t: seq<Token>, i: nat, keyword: string, opener: string)
    requires AllNamed(t) && Head(t, i, keyword, opener).Ok?
    ensures Head(t, i, keyword, opener).value.1 != ""
  {
    var j := Take(t, i, keyword).value.1;
    assert Ident(t, j).Ok?;
    assert t[j] in t;
    hide Take;
  }

  lemma StepBuilt(t: seq<Token>, i: nat)
    requires AllNamed(t) && ParseStep(t, i).Ok?
    ensures ParseStep(t, i).value.0.code != "" && ParseStep(t, i).value.0.action != ""
  {
    HeadNamed(t, i, "step", "{");
    hide Head, ParseStepFields, AllNamed;
  }

  predicate StepsBuilt(steps: seq<StepDecl>) { forall s :: s in steps ==> s.code != "" && s.action != "" }

  lemma {:induction false} WorkflowItemsBuilt(t: seq<Token>, i: nat, f: WorkflowFields)
    requires AllNamed(t) && StepsBuilt(f.steps) && ParseWorkflowItems(t, i, f).Ok?
    ensures StepsBuilt(ParseWorkflowItems(t, i, f).value.0.steps)
    decreases |t| - i
  {
    hide AllNamed, ParseStep, Take, Key, Optional;
    if t[i].kind == "step" {
      StepBuilt(t, i);
      var (s, j) := ParseStep(t, i).value;
      WorkflowItemsBuilt(t, j, f.(steps := f.steps + [s]));
    } else if t[i].kind != "}" {
      var j := Take(t, Key(t, i).1, "=").value.1;
      var (g, k) := WorkflowField(t, j, Key(t, i).0, f).value;
      assert g.steps == f.steps;
      hide WorkflowField;
      WorkflowItemsBuilt(t, Optional(t, k, ";").value, g);
    }
  }

  lemma WorkflowIsBuilt(t: seq<Token>, i: nat)
    requires AllNamed(t) && ParseWorkflow(t, i).Ok?
    ensures WorkflowBuilt(ParseWorkflow(t, i).value.0)
  {
    HeadNamed(t, i, "workflow", "{");
    WorkflowItemsBuilt(t, Head(t, i, "workflow", "{").value.2, WorkflowFields("", [], None, true));
    hide Head, ParseWorkflowItems, AllNamed;
  }

  lemma DomainIsBuilt(t: seq<Token>, i: nat)
    requires AllNamed(t) && ParseDomain(t, i).Ok?
    ensures ParseDomain(t, i).value.0.code != ""
  {
    HeadNamed(t, i, "domain", "{");
    hide Head, ParseDomainFields, AllNamed;
  }

  predicate ItemsBuilt(x: Items) {
    && (x.organization.Some? ==> x.organization.value.code != "" && x.organization.value.name != "")
    && (forall d :: d in x.domains ==> d.code != "")
    && (forall w :: w in x.workflows ==> WorkflowBuilt(w))
  }

  lemma ItemBuilt(t: seq<Token>, i: nat, x: Items)
    requires AllNamed(t) && ItemsBuilt(x) && ParseItem(t, i, x).Ok?
    ensures ItemsBuilt(ParseItem(t, i, x).value.0)
  {
    hide AllNamed, ParseDomain, ParseWorkflow, ParsePolicy, ParseMetadata, WorkflowBuilt, OrganizationFields;
    if t[i].kind == "domain" { DomainIsBuilt(t, i); }
    if t[i].kind == "workflow" { WorkflowIsBuilt(t, i); }
  }

  lemma {:induction false} ItemsAreBuilt(t: seq<Token>, i: nat, x: Items)
    requires AllNamed(t) && ItemsBuilt(x) && ParseItems(t, i, x).Ok?
    ensures ItemsBuilt(ParseItems(t, i, x).value.0)
    decreases |t| - i
  {
    hide AllNamed, ParseItem, ItemsBuilt, Optional;
    if t[i].kind != "}" {
      ItemBuilt(t, i, x);
      var (y, j) := ParseItem(t, i, x).value;
      ItemsAreBuilt(t, Optional(t, j, ";").value, y);
    }
  }

  /** Main result: every tree that comes out of the lexer and the parser has what the validators assume:
      names, codes, triggers, steps and actions that are not empty. */
  lemma ParsedIsBuilt(source: string, decode: L.Decoder)
    requires L.Lex(source, decode).Ok? && Parse(L.Lex(source, decode).value).Ok?
    ensures ParserBuilt(Parse(L.Lex(source, decode).value).value)
  {
    var t := L.Lex(source, decode).value;
    LexedTokenizes(source, decode);
    TokensNamed(source, 0, t, decode);
    assert AllNamed(t);
    hide AllNamed, L.Lex, L.Tokenizes, Named;
    assert ModuleHead(t).Ok?;
    HeadNamed(t, 0, "module", "version");
    var i := ModuleHead(t).value.3;
    assert ModuleHead(t).value.1 != "";
    hide ModuleHead;
    ItemsAreBuilt(t, i, Items(None, [], [], [], []));
    hide ParseItems;
  }

  lemma LexedTokenizes(source: string, decode: L.Decoder)
    requires L.Lex(source, decode).Ok?
    ensures L.Tokenizes(source, 0, L.Lex(source, decode).value, decode)
  {
    hide L.Tokenizes, L.LexAt, L.Lex;
    L.LexIsLexAt(source, decode);
    L.LexTokenizes(source, 0, decode);
    var r := L.LexAt(source, 0, decode);
    if r.Ok? { assert [] + r.value == r.value; }
  }

  // ---------------------------------------------------------------- compiling a text

  datatype SourceError = Lexical | Syntax(at: ParseError) | Semantic(why: CompileError)

  /** The canonical tree: no places, capability lists and policy values sorted. */
  datatype Canonical = Canonical(
    name: string, version: string, orgCode: string, orgName: string, domains: seq<Domain>, workflows: seq<Workflow>,
    policies: map<string, seq<string>>, metadata: map<string, (string, Scalar)>)

  function SortedDomain(d: Domain): Domain { PlainDomain(d.(capabilities := SortBy(Itself, d.capabilities))) }

  function CanonicalPolicies(policies: seq<Policy>): map<string, seq<string>> {
    if policies == [] then map[]
    else
      var p := policies[|policies| - 1];
      CanonicalPolicies(policies[..|policies| - 1])[p.name := SortBy(Itself, p.values)]
  }

  function CanonicalMetadata(metadata: seq<Metadata>): map<string, (string, Scalar)> {
    if metadata == [] then map[]
    else
      var m := metadata[|metadata| - 1];
      CanonicalMetadata(metadata[..|metadata| - 1])[m.key := (m.value.kind, m.value.value)]
  }

  /** `canonical_ast`. */
  function CanonicalAst(m: Module): Canonical {
    Canonical(m.name, m.version, m.organization.code, m.organization.name, MapSeq(SortedDomain, m.domains),
              MapSeq(PlainWorkflow, m.workflows), CanonicalPolicies(m.policies), CanonicalMetadata(m.metadata))
  }

  /** `compile_source`: the canonical tree, the contract and the plan. */
  function CompileText(source: string, decode: L.Decoder): Result<(Canonical, Compiled), SourceError> {
    match L.Lex(source, decode)
    case Err(_) => Err(Lexical)
    case Ok(tokens) =>
      match Parse(tokens)
      case Err(e) => Err(Syntax(e))
      case Ok(m) =>
        match CompileAst(m)
        case Err(e) => Err(Semantic(e))
        case Ok(c) => Ok((CanonicalAst(m), c))
  }

  // ---------------------------------------------------------------- places do not matter

  lemma {:induction false} DomainsCodesPlain(domains: seq<Domain>)
    ensures DomainsCodes(MapSeq(PlainDomain, domains)) == DomainsCodes(domains)
    ensures CodesOf(MapSeq(PlainDomain, domains)) == CodesOf(domains)
  {
    hide CapabilityCodes;
    var plain := MapSeq(PlainDomain, domains);
    if domains != [] {
      var n := |domains| - 1;
      DomainsCodesPlain(domains[..n]);
      assert plain[..n] == MapSeq(PlainDomain, domains[..n]) && plain == plain[..n] + [PlainDomain(domains[n])];
      assert domains == domains[..n] + [domains[n]];
    }
  }

  lemma {:induction false} StepsCodesPlain(steps: seq<StepDecl>)
    ensures StepsCodes(MapSeq(PlainStep, steps)) == StepsCodes(steps)
    ensures StepsSeen(MapSeq(PlainStep, steps)) == StepsSeen(steps)
  {
    hide ActionCodes;
    var plain := MapSeq(PlainStep, steps);
    if steps != [] {
      var n := |steps| - 1;
      StepsCodesPlain(steps[..n]);
      assert plain[..n] == MapSeq(PlainStep, steps[..n]) && plain == plain[..n] + [PlainStep(steps[n])];
      assert steps == steps[..n] + [steps[n]];
    }
  }

  lemma {:induction false} WorkflowsCodesPlain(workflows: seq<Workflow>)
    ensures WorkflowsCodes(MapSeq(PlainWorkflow, workflows)) == WorkflowsCodes(workflows)
    ensures WorkflowsSeen(MapSeq(PlainWorkflow, workflows)) == WorkflowsSeen(workflows)
  {
    hide StepsCodes;
    var plain := MapSeq(PlainWorkflow, workflows);
    if workflows != [] {
      var n := |workflows| - 1;
      WorkflowsCodesPlain(workflows[..n]);
      StepsCodesPlain(workflows[n].steps);
      assert plain[..n] == MapSeq(PlainWorkflow, workflows[..n]) && plain == plain[..n] + [PlainWorkflow(workflows[n])];
      assert workflows == workflows[..n] + [workflows[n]];
    }
  }

  lemma {:induction false} PoliciesPlain(policies: seq<Policy>)
    ensures PoliciesCodes(MapSeq(PlainPolicy, policies)) == PoliciesCodes(policies)
    ensures LowerPolicies(MapSeq(PlainPolicy, policies)) == LowerPolicies(policies)
    ensures CanonicalPolicies(MapSeq(PlainPolicy, policies)) == CanonicalPolicies(policies)
  {
    var plain := MapSeq(PlainPolicy, policies);
    if policies != [] {
      var n := |policies| - 1;
      PoliciesPlain(policies[..n]);
      assert plain[..n] == MapSeq(PlainPolicy, policies[..n]);
    }
  }

  lemma {:induction false} MetadataPlain(metadata: seq<Metadata>)
    ensures LowerMetadata(MapSeq(PlainMetadata, metadata)) == LowerMetadata(metadata)
    ensures CanonicalMetadata(MapSeq(PlainMetadata, metadata)) == CanonicalMetadata(metadata)
  {
    var plain := MapSeq(PlainMetadata, metadata);
    if metadata != [] {
      var n := |metadata| - 1;
      MetadataPlain(metadata[..n]);
      assert plain[..n] == MapSeq(PlainMetadata, metadata[..n]);
    }
  }

  lemma AstCodesPlain(m: Module)
    ensures AstCodes(Plain(m)) == AstCodes(m)
  {
    DomainsCodesPlain(m.domains);
    WorkflowsCodesPlain(m.workflows);
    PoliciesPlain(m.policies);
    hide DomainsCodes, WorkflowsCodes, PoliciesCodes, MapSeq;
  }

  lemma SpecPlain(m: Module)
    ensures AstToSpec(Plain(m)) == AstToSpec(m)
  {
    PoliciesPlain(m.policies);
    MetadataPlain(m.metadata);
    hide LowerPolicies, LowerMetadata;
    assert MapSeq(LowerDomain, MapSeq(PlainDomain, m.domains)) == MapSeq(LowerDomain, m.domains);
    forall w ensures LowerWorkflow(PlainWorkflow(w)) == LowerWorkflow(w) {
      assert MapSeq(LowerStep, MapSeq(PlainStep, w.steps)) == MapSeq(LowerStep, w.steps);
    }
    assert MapSeq(LowerWorkflow, MapSeq(PlainWorkflow, m.workflows)) == MapSeq(LowerWorkflow, m.workflows);
  }

  lemma {:induction false} BuildStepsPlain(workflow: string, steps: seq<StepDecl>)
    ensures BuildSteps(workflow, MapSeq(PlainStep, steps)) == BuildSteps(workflow, steps)
    ensures PreviousId(workflow, MapSeq(PlainStep, steps)) == PreviousId(workflow, steps)
  {
    hide CheckAction, ActionOf, RiskOf;
    if steps != [] {
      var n := |steps| - 1;
      BuildStepsPlain(workflow, steps[..n]);
      assert MapSeq(PlainStep, steps)[..n] == MapSeq(PlainStep, steps[..n]);
    }
  }

  lemma {:induction false} BuildWorkflowsPlain(workflows: seq<Workflow>)
    ensures BuildWorkflows(MapSeq(PlainWorkflow, workflows)) == BuildWorkflows(workflows)
  {
    hide BuildSteps;
    if workflows != [] {
      var n := |workflows| - 1;
      BuildWorkflowsPlain(workflows[..n]);
      BuildStepsPlain(workflows[n].code, workflows[n].steps);
      assert MapSeq(PlainWorkflow, workflows)[..n] == MapSeq(PlainWorkflow, workflows[..n]);
    }
  }

  lemma IrPlain(m: Module)
    ensures BuildIr(Plain(m)) == BuildIr(m)
  {
    A.SortMap(SourceCode, PlainWorkflow, SourceCode, m.workflows);
    BuildWorkflowsPlain(SortBy(SourceCode, m.workflows));
    hide BuildWorkflows, SortBy, MapSeq, ActionsOf;
  }

  lemma CanonicalPlain(m: Module)
    ensures CanonicalAst(Plain(m)) == CanonicalAst(m)
  {
    PoliciesPlain(m.policies);
    MetadataPlain(m.metadata);
    hide CanonicalPolicies, CanonicalMetadata, SortBy;
    assert MapSeq(SortedDomain, MapSeq(PlainDomain, m.domains)) == MapSeq(SortedDomain, m.domains);
    forall w ensures PlainWorkflow(PlainWorkflow(w)) == PlainWorkflow(w) {
      assert MapSeq(PlainStep, MapSeq(PlainStep, w.steps)) == MapSeq(PlainStep, w.steps);
    }
    assert MapSeq(PlainWorkflow, MapSeq(PlainWorkflow, m.workflows)) == MapSeq(PlainWorkflow, m.workflows);
  }

  /** Compilation only looks at the tree without its places. */
  lemma CompilePlain(m: Module)
    ensures CompileAst(Plain(m)) == CompileAst(m)
    ensures CanonicalAst(Plain(m)) == CanonicalAst(m)
  {
    AstCodesPlain(m);
    SpecPlain(m);
    IrPlain(m);
    CanonicalPlain(m);
    hide AstCodes, AstToSpec, BuildIr, Plain, CompileSpec, ValidateIr, CanonicalAst;
  }

  /** Main result: laying out a source anew, one space after every lexeme and no comments, changes neither
      its acceptance nor its canonical tree, its contract or its plan, and so none of their hashes. */
  lemma LayoutDoesNotMatter(source: string, decode: L.Decoder)
    requires L.Lex(source, decode).Ok?
    ensures CompileText(L.Render(source, L.Lex(source, decode).value), decode) == CompileText(source, decode)
  {
    hide *;
    var t := L.Lex(source, decode).value;
    LexedTokenizes(source, decode);
    L.RenderKeepsTokens(source, 0, t, 0, 1, 1, decode);
    LexMeans(L.Render(source, t), decode);
    var u := L.Lex(L.Render(source, t), decode).value;
    SameTextTokens(t, u);
    CompileTextMeans(source, decode);
    CompileTextMeans(L.Render(source, t), decode);
    StripParse(t);
    StripParse(u);
    if Parse(t).Ok? {
      CompilePlain(Parse(t).value);
      CompilePlain(Parse(u).value);
    }
  }

  lemma LexMeans(source: string, decode: L.Decoder)
    ensures L.Lex(source, decode) == L.LexFrom(source, 0, 1, 1, decode)
  {
  }

  lemma SameTextTokens(t: seq<Token>, u: seq<Token>)
    requires L.SameTokens(t, u)
    ensures Strip(t) == Strip(u)
  {
    assert forall k :: 0 <= k < |t| ==> StripToken(t[k]) == StripToken(u[k]);
  }

  lemma CompileTextMeans(source: string, decode: L.Decoder)
    requires L.Lex(source, decode).Ok?
    ensures var m := Parse(L.Lex(source, decode).value);
            CompileText(source, decode)
            == if m.Err? then Err(Syntax(m.error))
               else if CompileAst(m.value).Err? then Err(Semantic(CompileAst(m.value).error))
               else Ok((CanonicalAst(m.value), CompileAst(m.value).value))
  {
    hide L.Lex, Parse, CompileAst, CanonicalAst;
  }

  /** When a source text compiles. */
  lemma TextCompilesIff(source: string, decode: L.Decoder)
    ensures CompileText(source, decode).Ok? <==>
              && L.Lex(source, decode).Ok? && Parse(L.Lex(source, decode).value).Ok?
              && var m := Parse(L.Lex(source, decode).value).value;
                 && m.version == "1.0" && SpecDiags(AstToSpec(m)) == []
                 && (forall w :: w in m.workflows ==> |w.steps| <= MAX_STEPS)
                 && NoRepeat(IdsOf(m.workflows))
  {
    if L.Lex(source, decode).Ok? && Parse(L.Lex(source, decode).value).Ok? {
      var m := Parse(L.Lex(source, decode).value).value;
      hide *;
      ParsedIsBuilt(source, decode);
      CompileTextMeans(source, decode);
      A.CompilesIff(m);
      G.ValidatorsAgree(m);
    } else {
      hide L.Lex, Parse, CompileAst, CanonicalAst, SpecDiags, AstToSpec, NoRepeat, IdsOf;
    }
  }
}
