/** The recursive-descent parser of HUS sources.

    A parser function takes the tokens and a cursor, and returns what it built and where the cursor
    stands then. Reading past the last token is an error of its own: the source indexes its token list. */
module HusParser {
  import opened HusAst
  import opened Outcomes
  import L = HusLexer

  type Token = L.Token

  datatype ParseError = Unexpected(kind: string, value: string) | OutOfTokens

  /** The result of a parser function, with the cursor after it. */
  type Parsed<+T> = Result<(T, nat), ParseError>

  const NAMES: set<string> := {"name", "engine", "capabilities", "enabled", "trigger", "action", "approval"}

  predicate Progress<T>(t: seq<Token>, i: nat, r: Parsed<T>) { r.Ok? ==> i < r.value.1 <= |t| }

  function Refuse<T>(t: seq<Token>, i: nat): (r: Parsed<T>)
    ensures r.Err?
  {
    if i < |t| then Err(Unexpected(t[i].kind, t[i].value)) else Err(OutOfTokens)
  }

  function Take(t: seq<Token>, i: nat, kind: string): (r: Parsed<Token>)
    ensures Progress(t, i, r) && (r.Ok? ==> r.value == (t[i], i + 1) && t[i].kind == kind)
  {
    if i < |t| && t[i].kind == kind then Ok((t[i], i + 1)) else Refuse(t, i)
  }

  /** Skip one token of the kind, if it is there. */
  function Optional(t: seq<Token>, i: nat, kind: string): (r: Result<nat, ParseError>)
    ensures r.Ok? ==> i <= r.value <= i + 1 && i < |t| && r.value <= |t|
  {
    if i >= |t| then Err(OutOfTokens) else Ok(if t[i].kind == kind then i + 1 else i)
  }

  function Ident(t: seq<Token>, i: nat): (r: Parsed<string>)
    ensures Progress(t, i, r)
  {
    if i < |t| && (t[i].kind == "IDENT" || t[i].kind in NAMES) then Ok((t[i].value, i + 1)) else Refuse(t, i)
  }

  function StringOrIdent(t: seq<Token>, i: nat): (r: Parsed<string>)
    ensures Progress(t, i, r)
  {
    if i < |t| && (t[i].kind == "STRING" || t[i].kind == "IDENT") then Ok((t[i].value, i + 1)) else Refuse(t, i)
  }

  /** The head of a declaration: its keyword, its name and what opens it. */
  function Head(t: seq<Token>, i: nat, keyword: string, opener: string): (r: Result<(Token, string, nat), ParseError>)
    ensures r.Ok? ==> i < r.value.2 <= |t| && r.value.0 == t[i]
  {
    match Take(t, i, keyword)
    case Err(e) => Err(e)
    case Ok((a, j)) =>
      match Ident(t, j)
      case Err(e) => Err(e)
      case Ok((name, k)) =>
        match Take(t, k, opener)
        case Err(e) => Err(e)
        case Ok((_, l)) => Ok((a, name, l))
  }

  function TokenSpan(x: Token): Span { Span(x.start, x.end, x.line, x.column) }

  function From(a: Token, end: nat): Span { Span(a.start, end, a.line, a.column) }

  function ParseScalar(t: seq<Token>, i: nat): (r: Parsed<Value>)
    ensures Progress(t, i, r)
  {
    if i >= |t| then Err(OutOfTokens)
    else
      var x := t[i];
      if x.kind == "STRING" then Ok((Value("string", Text(x.value), TokenSpan(x)), i + 1))
      else if x.kind == "IDENT" then Ok((Value("identifier", Text(x.value), TokenSpan(x)), i + 1))
      else if x.kind == "NUMBER" then
        Ok((Value(if '.' in x.value then "decimal" else "integer", Text(x.value), TokenSpan(x)), i + 1))
      else if x.kind == "true" || x.kind == "false" then
        Ok((Value("boolean", Flag(x.kind == "true"), TokenSpan(x)), i + 1))
      else Refuse(t, i)
  }

  // ---------------------------------------------------------------- lists

  function ListItems(t: seq<Token>, i: nat, vals: seq<string>): (r: Parsed<seq<string>>)
    ensures Progress(t, i, r)
    decreases |t| - i
  {
    match StringOrIdent(t, i)
    case Err(e) => Err(e)
    case Ok((v, j)) =>
      match Optional(t, j, ",")
      case Err(e) => Err(e)
      case Ok(k) => if k == j then Ok((vals + [v], j)) else ListItems(t, k, vals + [v])
  }

  function ParseList(t: seq<Token>, i: nat): (r: Parsed<seq<string>>)
    ensures Progress(t, i, r)
  {
    match Take(t, i, "[")
    case Err(e) => Err(e)
    case Ok((_, j)) =>
      if j >= |t| then Err(OutOfTokens)
      else if t[j].kind == "]" then Ok(([], j + 1))
      else
        match ListItems(t, j, [])
        case Err(e) => Err(e)
        case Ok((vals, k)) =>
          match Take(t, k, "]")
          case Err(e) => Err(e)
          case Ok((_, l)) => Ok((vals, l))
  }

  // ---------------------------------------------------------------- organization, policy, metadata

  const ORGANIZATION_ENDS: set<string> := {";", "domain", "workflow", "policy", "metadata", "}"}

  /** `key = value`: the key, the value, and the cursor. */
  function Assignment(t: seq<Token>, i: nat): (r: Result<(string, string, nat), ParseError>)
    ensures r.Ok? ==> i < r.value.2 <= |t|
  {
    match Ident(t, i)
    case Err(e) => Err(e)
    case Ok((key, j)) =>
      match Take(t, j, "=")
      case Err(e) => Err(e)
      case Ok((_, k)) =>
        match StringOrIdent(t, k)
        case Err(e) => Err(e)
        case Ok((val, l)) => Ok((key, val, l))
  }

  function OrganizationFields(t: seq<Token>, i: nat, code: string,
                              name: string): (r: Result<(string, string, nat), ParseError>)
    ensures r.Ok? ==> i <= r.value.2 < |t|
    decreases |t| - i
  {
    if i >= |t| then Err(OutOfTokens)
    else if t[i].kind in ORGANIZATION_ENDS then Ok((code, name, i))
    else
      match Assignment(t, i)
      case Err(e) => Err(e)
      case Ok((key, val, j)) =>
        if key == "code" then OrganizationFields(t, j, val, name)
        else if key == "name" then OrganizationFields(t, j, code, val)
        else if j < |t| then Err(Unexpected(t[j].kind, t[j].value)) else Err(OutOfTokens)
  }

  function ParseOrganization(t: seq<Token>, i: nat): (r: Parsed<Organization>)
    ensures Progress(t, i, r)
  {
    match Take(t, i, "organization")
    case Err(e) => Err(e)
    case Ok((a, j)) =>
      match OrganizationFields(t, j, "", "")
      case Err(e) => Err(e)
      case Ok((code, name, k)) =>
        if code == "" || name == "" then Refuse(t, k) else Ok((Organization(code, name, From(a, t[k].start)), k))
  }

  function ParsePolicy(t: seq<Token>, i: nat): (r: Parsed<Policy>)
    ensures Progress(t, i, r)
  {
    match Head(t, i, "policy", "=")
    case Err(e) => Err(e)
    case Ok((a, name, j)) =>
      match ParseList(t, j)
      case Err(e) => Err(e)
      case Ok((values, k)) => if k >= |t| then Err(OutOfTokens) else Ok((Policy(name, values, From(a, t[k].start)), k))
  }

  function ParseMetadata(t: seq<Token>, i: nat): (r: Parsed<Metadata>)
    ensures Progress(t, i, r)
  {
    match Head(t, i, "metadata", "=")
    case Err(e) => Err(e)
    case Ok((_, key, j)) =>
      match ParseScalar(t, j)
      case Err(e) => Err(e)
      case Ok((val, k)) => Ok((Metadata(key, val), k))
  }

  // ---------------------------------------------------------------- domains

  /** The key of a field: an identifier moves the cursor twice. */
  function Key(t: seq<Token>, i: nat): (r: (string, nat))
    requires i < |t|
    ensures i < r.1
  {
    if t[i].kind == "IDENT" then (t[i].value, i + 2) else (t[i].kind, i + 1)
  }

  datatype DomainFields = DomainFields(engine: Option<string>, capabilities: seq<string>, name: Option<string>,
                                       enabled: bool)

  function ParseFlag(t: seq<Token>, i: nat): (r: Parsed<bool>)
    ensures Progress(t, i, r)
  {
    if i < |t| && (t[i].kind == "true" || t[i].kind == "false") then Ok((t[i].kind == "true", i + 1)) else Refuse(t, i)
  }

  /** The value of one domain field. */
  function DomainField(t: seq<Token>, i: nat, key: string, f: DomainFields): (r: Parsed<DomainFields>)
    ensures Progress(t, i, r)
  {
    match key
    case "engine" => (match StringOrIdent(t, i) case Err(e) => Err(e) case Ok((v, j)) => Ok((f.(engine := Some(v)), j)))
    case "capabilities" =>
      (match ParseList(t, i) case Err(e) => Err(e) case Ok((v, j)) => Ok((f.(capabilities := v), j)))
    case "name" => (match StringOrIdent(t, i) case Err(e) => Err(e) case Ok((v, j)) => Ok((f.(name := Some(v)), j)))
    case "enabled" => (match ParseFlag(t, i) case Err(e) => Err(e) case Ok((v, j)) => Ok((f.(enabled := v), j)))
    case _ => Refuse(t, i)
  }

  function ParseDomainFields(t: seq<Token>, i: nat, f: DomainFields): (r: Result<(DomainFields, nat), ParseError>)
    ensures r.Ok? ==> i <= r.value.1 < |t| && t[r.value.1].kind == "}"
    decreases |t| - i
  {
    if i >= |t| then Err(OutOfTokens)
    else if t[i].kind == "}" then Ok((f, i))
    else
      match Take(t, Key(t, i).1, "=")
      case Err(e) => Err(e)
      case Ok((_, j)) =>
        match DomainField(t, j, Key(t, i).0, f)
        case Err(e) => Err(e)
        case Ok((g, k)) =>
          match Optional(t, k, ";")
          case Err(e) => Err(e)
          case Ok(l) => ParseDomainFields(t, l, g)
  }

  function ParseDomain(t: seq<Token>, i: nat): (r: Parsed<Domain>)
    ensures Progress(t, i, r)
  {
    match Head(t, i, "domain", "{")
    case Err(e) => Err(e)
    case Ok((a, code, j)) =>
      match ParseDomainFields(t, j, DomainFields(None, [], None, true))
      case Err(e) => Err(e)
      case Ok((f, k)) =>
        if f.engine.None? then Refuse(t, k)
        else Ok((Domain(code, f.engine.value, f.capabilities, f.name, f.enabled, From(a, t[k].end)), k + 1))
  }

  // ---------------------------------------------------------------- steps and workflows

  function ParseStepFields(t: seq<Token>, i: nat, action: string,
                           approval: bool): (r: Result<(string, bool, nat), ParseError>)
    ensures r.Ok? ==> i <= r.value.2 < |t| && t[r.value.2].kind == "}"
    decreases |t| - i
  {
    if i >= |t| then Err(OutOfTokens)
    else if t[i].kind == "}" then Ok((action, approval, i))
    else
      var (key, j) := Key(t, i);
      if key == "approval" then
        match Optional(t, j, ";")
        case Err(e) => Err(e)
        case Ok(k) => ParseStepFields(t, k, action, true)
      else
        match Take(t, j, "=")
        case Err(e) => Err(e)
        case Ok((_, k)) =>
          if key != "action" then if k < |t| then Err(Unexpected(t[k].kind, t[k].value)) else Err(OutOfTokens)
          else
            match StringOrIdent(t, k)
            case Err(e) => Err(e)
            case Ok((v, l)) =>
              match Optional(t, l, ";")
              case Err(e) => Err(e)
              case Ok(m) => ParseStepFields(t, m, v, approval)
  }

  function ParseStep(t: seq<Token>, i: nat): (r: Parsed<StepDecl>)
    ensures Progress(t, i, r)
  {
    match Head(t, i, "step", "{")
    case Err(e) => Err(e)
    case Ok((a, code, j)) =>
      match ParseStepFields(t, j, "", false)
      case Err(e) => Err(e)
      case Ok((action, approval, k)) =>
        if action == "" then Refuse(t, k) else Ok((StepDecl(code, action, approval, From(a, t[k].end)), k + 1))
  }

  datatype WorkflowFields = WorkflowFields(trigger: string, steps: seq<StepDecl>, name: Option<string>, enabled: bool)

  function WorkflowField(t: seq<Token>, i: nat, key: string, f: WorkflowFields): (r: Parsed<WorkflowFields>)
    ensures Progress(t, i, r)
  {
    match key
    case "trigger" => (match StringOrIdent(t, i) case Err(e) => Err(e) case Ok((v, j)) => Ok((f.(trigger := v), j)))
    case "name" => (match StringOrIdent(t, i) case Err(e) => Err(e) case Ok((v, j)) => Ok((f.(name := Some(v)), j)))
    case "enabled" => (match ParseFlag(t, i) case Err(e) => Err(e) case Ok((v, j)) => Ok((f.(enabled := v), j)))
    case _ => Refuse(t, i)
  }

  function ParseWorkflowItems(t: seq<Token>, i: nat, f: WorkflowFields): (r: Result<(WorkflowFields, nat), ParseError>)
    ensures r.Ok? ==> i <= r.value.1 < |t| && t[r.value.1].kind == "}"
    decreases |t| - i
  {
    if i >= |t| then Err(OutOfTokens)
    else if t[i].kind == "}" then Ok((f, i))
    else if t[i].kind == "step" then
      match ParseStep(t, i)
      case Err(e) => Err(e)
      case Ok((s, j)) => ParseWorkflowItems(t, j, f.(steps := f.steps + [s]))
    else
      match Take(t, Key(t, i).1, "=")
      case Err(e) => Err(e)
      case Ok((_, j)) =>
        match WorkflowField(t, j, Key(t, i).0, f)
        case Err(e) => Err(e)
        case Ok((g, k)) =>
          match Optional(t, k, ";")
          case Err(e) => Err(e)
          case Ok(l) => ParseWorkflowItems(t, l, g)
  }

  function ParseWorkflow(t: seq<Token>, i: nat): (r: Parsed<Workflow>)
    ensures Progress(t, i, r)
  {
    match Head(t, i, "workflow", "{")
    case Err(e) => Err(e)
    case Ok((a, code, j)) =>
      match ParseWorkflowItems(t, j, WorkflowFields("", [], None, true))
      case Err(e) => Err(e)
      case Ok((f, k)) =>
        if f.trigger == "" || f.steps == [] then Refuse(t, k)
        else Ok((Workflow(code, f.trigger, f.steps, f.name, f.enabled, From(a, t[k].end)), k + 1))
  }

  // ---------------------------------------------------------------- the module

  datatype Items = Items(
    organization: Option<Organization>, domains: seq<Domain>, workflows: seq<Workflow>, policies: seq<Policy>,
    metadata: seq<Metadata>)

  /** One declaration of the module. */
  function ParseItem(t: seq<Token>, i: nat, x: Items): (r: Parsed<Items>)
    ensures Progress(t, i, r)
  {
    if i >= |t| then Err(OutOfTokens)
    else
      match t[i].kind
      case "organization" =>
        (match ParseOrganization(t, i) case Err(e) => Err(e) case Ok((v, j)) => Ok((x.(organization := Some(v)), j)))
      case "domain" =>
        (match ParseDomain(t, i) case Err(e) => Err(e) case Ok((v, j)) => Ok((x.(domains := x.domains + [v]), j)))
      case "workflow" =>
        (match ParseWorkflow(t, i) case Err(e) => Err(e) case Ok((v, j)) => Ok((x.(workflows := x.workflows + [v]), j)))
      case "policy" =>
        (match ParsePolicy(t, i) case Err(e) => Err(e) case Ok((v, j)) => Ok((x.(policies := x.policies + [v]), j)))
      case "metadata" =>
        (match ParseMetadata(t, i) case Err(e) => Err(e) case Ok((v, j)) => Ok((x.(metadata := x.metadata + [v]), j)))
      case _ => Refuse(t, i)
  }

  function ParseItems(t: seq<Token>, i: nat, x: Items): (r: Result<(Items, nat), ParseError>)
    ensures r.Ok? ==> i <= r.value.1 < |t|
    decreases |t| - i
  {
    if i >= |t| then Err(OutOfTokens)
    else if t[i].kind == "}" then Ok((x, i))
    else
      match ParseItem(t, i, x)
      case Err(e) => Err(e)
      case Ok((y, j)) =>
        match Optional(t, j, ";")
        case Err(e) => Err(e)
        case Ok(k) => ParseItems(t, k, y)
  }

  /** `module name version v {`: the first token, the name, the version, and the cursor. */
  function ModuleHead(t: seq<Token>): (r: Result<(Token, string, string, nat), ParseError>)
    ensures r.Ok? ==> 0 < r.value.3 <= |t| && r.value.0 == t[0]
  {
    match Head(t, 0, "module", "version")
    case Err(e) => Err(e)
    case Ok((a, name, i)) =>
      match StringOrIdent(t, i)
      case Err(e) => Err(e)
      case Ok((version, j)) =>
        match Take(t, j, "{")
        case Err(e) => Err(e)
        case Ok((_, k)) => Ok((a, name, version, k))
  }

  /** `parse`. What follows the closing brace is not looked at. */
  function Parse(t: seq<Token>): Result<Module, ParseError> {
    match ModuleHead(t)
    case Err(e) => Err(e)
    case Ok((a, name, version, i)) =>
      match ParseItems(t, i, Items(None, [], [], [], []))
      case Err(e) => Err(e)
      case Ok((x, j)) =>
        if x.organization.None? then Err(Unexpected(t[j].kind, t[j].value))
        else Ok(Module(name, version, x.organization.value, x.domains, x.workflows, x.policies, x.metadata,
                       From(a, t[j].end)))
  }
}
