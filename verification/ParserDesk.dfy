/** The parser as it runs: one cursor that every method moves. */
module ParserDesk {
  import opened HusAst
  import opened HusParser
  import opened Outcomes

  /** The method's result and the cursor are those of the parser function. */
  predicate Agrees<T(==)>(r: Result<T, ParseError>, i: nat, p: Parsed<T>) {
    match p
    case Ok((v, j)) => r == Ok(v) && i == j
    case Err(e) => r == Err(e)
  }

  class Parser {
    const t: seq<Token>
    var i: nat

    constructor (tokens: seq<Token>)
      ensures t == tokens && i == 0
    {
      t, i := tokens, 0;
    }

    method Expect(kind: string) returns (r: Result<Token, ParseError>)
      modifies this`i
      ensures Agrees(r, i, Take(t, old(i), kind)) && (r.Err? ==> i == old(i))
    {
      if i >= |t| { return Err(OutOfTokens); }
      var x := t[i];
      if x.kind != kind { return Err(Unexpected(x.kind, x.value)); }
      i := i + 1;
      r := Ok(x);
    }

    /** Skip one token of the kind, if it is there. */
    method Skip(kind: string) returns (r: Result<bool, ParseError>)
      modifies this`i
      ensures match Optional(t, old(i), kind)
              case Ok(j) => i == j && r == Ok(j != old(i))
              case Err(e) => r == Err(e)
    {
      if i >= |t| { return Err(OutOfTokens); }
      if t[i].kind == kind { i := i + 1; return Ok(true); }
      r := Ok(false);
    }

    method Name() returns (r: Result<string, ParseError>)
      modifies this`i
      ensures Agrees(r, i, Ident(t, old(i)))
    {
      if i >= |t| { return Err(OutOfTokens); }
      var x := t[i];
      if x.kind == "IDENT" || x.kind in NAMES { i := i + 1; return Ok(x.value); }
      r := Err(Unexpected(x.kind, x.value));
    }

    method Word() returns (r: Result<string, ParseError>)
      modifies this`i
      ensures Agrees(r, i, StringOrIdent(t, old(i)))
    {
      if i >= |t| { return Err(OutOfTokens); }
      var x := t[i];
      if x.kind == "STRING" || x.kind == "IDENT" { i := i + 1; return Ok(x.value); }
      r := Err(Unexpected(x.kind, x.value));
    }

    method Flag() returns (r: Result<bool, ParseError>)
      modifies this`i
      ensures Agrees(r, i, ParseFlag(t, old(i)))
    {
      if i >= |t| { return Err(OutOfTokens); }
      var x := t[i];
      if x.kind != "true" && x.kind != "false" { return Err(Unexpected(x.kind, x.value)); }
      i := i + 1;
      r := Ok(x.kind == "true");
    }

    method ScalarValue() returns (r: Result<Value, ParseError>)
      modifies this`i
      ensures Agrees(r, i, ParseScalar(t, old(i)))
    {
      if i >= |t| { return Err(OutOfTokens); }
      var x := t[i];
      i := i + 1;
      match x.kind {
        case "STRING" => r := Ok(Value("string", Text(x.value), TokenSpan(x)));
        case "IDENT" => r := Ok(Value("identifier", Text(x.value), TokenSpan(x)));
        case "NUMBER" => r := Ok(Value(if '.' in x.value then "decimal" else "integer", Text(x.value), TokenSpan(x)));
        case "true" => r := Ok(Value("boolean", HusAst.Flag(true), TokenSpan(x)));
        case "false" => r := Ok(Value("boolean", HusAst.Flag(false), TokenSpan(x)));
        case _ => r := Err(Unexpected(x.kind, x.value));
      }
    }

    /** `parse_list`: strings separated by commas. */
    method List() returns (r: Result<seq<string>, ParseError>)
      modifies this`i
      ensures Agrees(r, i, ParseList(t, old(i)))
    {
      hide StringOrIdent;
      var open := Expect("[");
      if open.Err? { return Err(open.error); }
      if i >= |t| { return Err(OutOfTokens); }
      var vals := [];
      if t[i].kind != "]" {
        ghost var start := i;
        var more := true;
        while more
          invariant i <= |t|
          invariant more ==> ListItems(t, start, []) == ListItems(t, i, vals)
          invariant !more ==> ListItems(t, start, []) == Ok((vals, i))
          decreases |t| - i, more
        {
          var v := Word();
          if v.Err? { return Err(v.error); }
          vals := vals + [v.value];
          var comma := Skip(",");
          if comma.Err? { return Err(comma.error); }
          more := comma.value;
        }
      }
      var close := Expect("]");
      if close.Err? { return Err(close.error); }
      r := Ok(vals);
    }

    method OrganizationDecl() returns (r: Result<Organization, ParseError>)
      modifies this`i
      ensures Agrees(r, i, ParseOrganization(t, old(i)))
    {
      hide Ident, StringOrIdent;
      var a := Expect("organization");
      if a.Err? { return Err(a.error); }
      ghost var start := i;
      var code, name := "", "";
      while true
        invariant i <= |t|
        invariant OrganizationFields(t, start, "", "") == OrganizationFields(t, i, code, name)
        decreases |t| - i
      {
        if i >= |t| { return Err(OutOfTokens); }
        if t[i].kind in ORGANIZATION_ENDS { break; }
        var key := Name();
        if key.Err? { return Err(key.error); }
        var eq := Expect("=");
        if eq.Err? { return Err(eq.error); }
        var val := Word();
        if val.Err? { return Err(val.error); }
        if key.value == "code" { code := val.value; }
        else if key.value == "name" { name := val.value; }
        else if i >= |t| { return Err(OutOfTokens); }
        else { return Err(Unexpected(t[i].kind, t[i].value)); }
      }
      if code == "" || name == "" { return Err(Unexpected(t[i].kind, t[i].value)); }
      r := Ok(Organization(code, name, From(a.value, t[i].start)));
    }

    /** A keyword, a name, and what opens the declaration. */
    method Opening(keyword: string, opener: string) returns (r: Result<(Token, string), ParseError>)
      modifies this`i
      ensures match Head(t, old(i), keyword, opener)
              case Ok((a, name, j)) => r == Ok((a, name)) && i == j
              case Err(e) => r == Err(e)
    {
      hide Ident;
      var a := Expect(keyword);
      if a.Err? { return Err(a.error); }
      var name := Name();
      if name.Err? { return Err(name.error); }
      var open := Expect(opener);
      if open.Err? { return Err(open.error); }
      r := Ok((a.value, name.value));
    }

    /** The key of a field; an identifier moves the cursor twice. */
    method FieldKey() returns (key: string)
      requires i < |t|
      modifies this`i
      ensures (key, i) == Key(t, old(i))
    {
      if t[i].kind == "IDENT" {
        key := t[i].value;
        i := i + 1;
      } else {
        key := t[i].kind;
      }
      i := i + 1;
    }

    method DomainDecl() returns (r: Result<Domain, ParseError>)
      modifies this`i
      ensures Agrees(r, i, ParseDomain(t, old(i)))
    {
      hide Head, Take, StringOrIdent, ParseList, ParseFlag, Optional, Key;
      var head := Opening("domain", "{");
      if head.Err? { return Err(head.error); }
      ghost var start := i;
      var f := DomainFields(None, [], None, true);
      while true
        invariant i <= |t|
        invariant ParseDomainFields(t, start, DomainFields(None, [], None, true)) == ParseDomainFields(t, i, f)
        decreases |t| - i
      {
        if i >= |t| { return Err(OutOfTokens); }
        if t[i].kind == "}" { break; }
        var key := FieldKey();
        var eq := Expect("=");
        if eq.Err? { return Err(eq.error); }
        var g := DomainValue(key, f);
        if g.Err? { return Err(g.error); }
        f := g.value;
        var semicolon := Skip(";");
        if semicolon.Err? { return Err(semicolon.error); }
      }
      if f.engine.None? { return Err(Unexpected(t[i].kind, t[i].value)); }
      i := i + 1;
      r := Ok(Domain(head.value.1, f.engine.value, f.capabilities, f.name, f.enabled,
                     From(head.value.0, t[i - 1].end)));
    }

    method DomainValue(key: string, f: DomainFields) returns (r: Result<DomainFields, ParseError>)
      modifies this`i
      ensures Agrees(r, i, DomainField(t, old(i), key, f))
    {
      hide StringOrIdent, ParseList, ParseFlag;
      match key {
        case "engine" =>
          var v := Word();
          if v.Err? { return Err(v.error); }
          r := Ok(f.(engine := Some(v.value)));
        case "capabilities" =>
          var v := List();
          if v.Err? { return Err(v.error); }
          r := Ok(f.(capabilities := v.value));
        case "name" =>
          var v := Word();
          if v.Err? { return Err(v.error); }
          r := Ok(f.(name := Some(v.value)));
        case "enabled" =>
          var v := Flag();
          if v.Err? { return Err(v.error); }
          r := Ok(f.(enabled := v.value));
        case _ =>
          if i >= |t| { return Err(OutOfTokens); }
          r := Err(Unexpected(t[i].kind, t[i].value));
      }
    }

    method Step() returns (r: Result<StepDecl, ParseError>)
      modifies this`i
      ensures Agrees(r, i, ParseStep(t, old(i)))
    {
      hide Head, Take, StringOrIdent, Optional, Key;
      var head := Opening("step", "{");
      if head.Err? { return Err(head.error); }
      ghost var start := i;
      var action, approval := "", false;
      while true
        invariant i <= |t|
        invariant ParseStepFields(t, start, "", false) == ParseStepFields(t, i, action, approval)
        decreases |t| - i
      {
        if i >= |t| { return Err(OutOfTokens); }
        if t[i].kind == "}" { break; }
        var key := FieldKey();
        if key == "approval" {
          approval := true;
        } else {
          var eq := Expect("=");
          if eq.Err? { return Err(eq.error); }
          if key != "action" {
            if i >= |t| { return Err(OutOfTokens); }
            return Err(Unexpected(t[i].kind, t[i].value));
          }
          var v := Word();
          if v.Err? { return Err(v.error); }
          action := v.value;
        }
        var semicolon := Skip(";");
        if semicolon.Err? { return Err(semicolon.error); }
      }
      if action == "" { return Err(Unexpected(t[i].kind, t[i].value)); }
      i := i + 1;
      r := Ok(StepDecl(head.value.1, action, approval, From(head.value.0, t[i - 1].end)));
    }

    method WorkflowValue(key: string, f: WorkflowFields) returns (r: Result<WorkflowFields, ParseError>)
      modifies this`i
      ensures Agrees(r, i, WorkflowField(t, old(i), key, f))
    {
      hide StringOrIdent, ParseFlag;
      match key {
        case "trigger" =>
          var v := Word();
          if v.Err? { return Err(v.error); }
          r := Ok(f.(trigger := v.value));
        case "name" =>
          var v := Word();
          if v.Err? { return Err(v.error); }
          r := Ok(f.(name := Some(v.value)));
        case "enabled" =>
          var v := Flag();
          if v.Err? { return Err(v.error); }
          r := Ok(f.(enabled := v.value));
        case _ =>
          if i >= |t| { return Err(OutOfTokens); }
          r := Err(Unexpected(t[i].kind, t[i].value));
      }
    }

    method WorkflowDecl() returns (r: Result<Workflow, ParseError>)
      modifies this`i
      ensures Agrees(r, i, ParseWorkflow(t, old(i)))
    {
      hide Head, Take, Optional, Key, ParseStep, WorkflowField;
      var head := Opening("workflow", "{");
      if head.Err? { return Err(head.error); }
      ghost var start := i;
      var f := WorkflowFields("", [], None, true);
      while true
        invariant i <= |t|
        invariant ParseWorkflowItems(t, start, WorkflowFields("", [], None, true)) == ParseWorkflowItems(t, i, f)
        decreases |t| - i
      {
        if i >= |t| { return Err(OutOfTokens); }
        if t[i].kind == "}" { break; }
        if t[i].kind == "step" {
          var s := Step();
          if s.Err? { return Err(s.error); }
          f := f.(steps := f.steps + [s.value]);
        } else {
          var key := FieldKey();
          var eq := Expect("=");
          if eq.Err? { return Err(eq.error); }
          var g := WorkflowValue(key, f);
          if g.Err? { return Err(g.error); }
          f := g.value;
          var semicolon := Skip(";");
          if semicolon.Err? { return Err(semicolon.error); }
        }
      }
      if f.trigger == "" || f.steps == [] { return Err(Unexpected(t[i].kind, t[i].value)); }
      i := i + 1;
      r := Ok(Workflow(head.value.1, f.trigger, f.steps, f.name, f.enabled, From(head.value.0, t[i - 1].end)));
    }

    method PolicyDecl() returns (r: Result<Policy, ParseError>)
      modifies this`i
      ensures Agrees(r, i, ParsePolicy(t, old(i)))
    {
      hide Head, ParseList;
      var head := Opening("policy", "=");
      if head.Err? { return Err(head.error); }
      var values := List();
      if values.Err? { return Err(values.error); }
      if i >= |t| { return Err(OutOfTokens); }
      r := Ok(Policy(head.value.1, values.value, From(head.value.0, t[i].start)));
    }

    method MetadataDecl() returns (r: Result<Metadata, ParseError>)
      modifies this`i
      ensures Agrees(r, i, ParseMetadata(t, old(i)))
    {
      hide Head, ParseScalar;
      var head := Opening("metadata", "=");
      if head.Err? { return Err(head.error); }
      var v := ScalarValue();
      if v.Err? { return Err(v.error); }
      r := Ok(Metadata(head.value.1, v.value));
    }

    /** One declaration of the module. */
    method Item(x: Items) returns (r: Result<Items, ParseError>)
      requires i < |t|
      modifies this`i
      ensures Agrees(r, i, ParseItem(t, old(i), x))
    {
      hide ParseOrganization, ParseDomain, ParseWorkflow, ParsePolicy, ParseMetadata;
      match t[i].kind {
        case "organization" =>
          var v := OrganizationDecl();
          if v.Err? { return Err(v.error); }
          r := Ok(x.(organization := Some(v.value)));
        case "domain" =>
          var v := DomainDecl();
          if v.Err? { return Err(v.error); }
          r := Ok(x.(domains := x.domains + [v.value]));
        case "workflow" =>
          var v := WorkflowDecl();
          if v.Err? { return Err(v.error); }
          r := Ok(x.(workflows := x.workflows + [v.value]));
        case "policy" =>
          var v := PolicyDecl();
          if v.Err? { return Err(v.error); }
          r := Ok(x.(policies := x.policies + [v.value]));
        case "metadata" =>
          var v := MetadataDecl();
          if v.Err? { return Err(v.error); }
          r := Ok(x.(metadata := x.metadata + [v.value]));
        case _ => r := Err(Unexpected(t[i].kind, t[i].value));
      }
    }

    /** `parse`. */
    method ParseTokens() returns (r: Result<Module, ParseError>)
      requires i == 0
      modifies this`i
      ensures r == Parse(t)
    {
      hide Head, Take, StringOrIdent, Optional, ParseItem;
      var head := Opening("module", "version");
      if head.Err? { return Err(head.error); }
      var version := Word();
      if version.Err? { return Err(version.error); }
      var open := Expect("{");
      if open.Err? { return Err(open.error); }
      ghost var start := i;
      var x := Items(None, [], [], [], []);
      while true
        invariant i <= |t|
        invariant ParseItems(t, start, Items(None, [], [], [], [])) == ParseItems(t, i, x)
        decreases |t| - i
      {
        if i >= |t| { return Err(OutOfTokens); }
        if t[i].kind == "}" { break; }
        var y := Item(x);
        if y.Err? { return Err(y.error); }
        x := y.value;
        var semicolon := Skip(";");
        if semicolon.Err? { return Err(semicolon.error); }
      }
      var close := t[i];
      i := i + 1;
      if x.organization.None? { return Err(Unexpected(close.kind, close.value)); }
      r := Ok(Module(head.value.1, version.value, x.organization.value, x.domains, x.workflows, x.policies, x.metadata,
                     From(head.value.0, close.end)));
    }
  }
}
