/** The HUS syntax tree, and its identity: the tree without source positions. */
module HusAst {
  import opened Outcomes

  datatype Span = Span(start: nat, end: nat, line: nat, column: nat)

  const NOWHERE := Span(0, 0, 0, 0)

  datatype Scalar = Text(text: string) | Flag(flag: bool)

  datatype Value = Value(kind: string, value: Scalar, span: Span)

  datatype Organization = Organization(code: string, name: string, span: Span)

  datatype Domain = Domain(code: string, engine: string, capabilities: seq<string>, name: Option<string>,
                           enabled: bool, span: Span)

  datatype StepDecl = StepDecl(code: string, action: string, approval: bool, span: Span)

  datatype Workflow = Workflow(code: string, trigger: string, steps: seq<StepDecl>, name: Option<string>,
                               enabled: bool, span: Span)

  datatype Policy = Policy(name: string, values: seq<string>, span: Span)

  datatype Metadata = Metadata(key: string, value: Value)

  datatype Module = Module(
    name: string, version: string, organization: Organization, domains: seq<Domain>, workflows: seq<Workflow>,
    policies: seq<Policy>, metadata: seq<Metadata>, span: Span)

  function MapSeq<T, U>(f: T -> U, s: seq<T>): (r: seq<U>)
    ensures |r| == |s| && forall i :: 0 <= i < |s| ==> r[i] == f(s[i])
  {
    seq(|s|, i requires 0 <= i < |s| => f(s[i]))
  }

  function PlainStep(s: StepDecl): StepDecl { s.(span := NOWHERE) }

  function PlainDomain(d: Domain): Domain { d.(span := NOWHERE) }

  function PlainWorkflow(w: Workflow): Workflow { w.(steps := MapSeq(PlainStep, w.steps), span := NOWHERE) }

  function PlainPolicy(p: Policy): Policy { p.(span := NOWHERE) }

  function PlainValue(v: Value): Value { v.(span := NOWHERE) }

  function PlainMetadata(m: Metadata): Metadata { m.(value := PlainValue(m.value)) }

  /** The tree without positions. */
  function Plain(m: Module): Module {
    Module(m.name, m.version, m.organization.(span := NOWHERE), MapSeq(PlainDomain, m.domains),
           MapSeq(PlainWorkflow, m.workflows),
           MapSeq(PlainPolicy, m.policies), MapSeq(PlainMetadata, m.metadata), NOWHERE)
  }

  predicate WorkflowBuilt(w: Workflow) {
    w.code != "" && w.trigger != "" && w.steps != [] && forall s :: s in w.steps ==> s.code != "" && s.action != ""
  }

  /** What the parser guarantees of the trees it builds. */
  predicate ParserBuilt(m: Module) {
    && m.name != "" && m.organization.code != "" && m.organization.name != ""
    && (forall d :: d in m.domains ==> d.code != "")
    && (forall w :: w in m.workflows ==> WorkflowBuilt(w))
  }
}
