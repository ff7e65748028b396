/** What the syntax tree depends on: the kinds and values of the tokens, not their places. */
module HusSyntax {
  import opened HusAst
  import opened HusParser
  import opened Outcomes
  import L = HusLexer

  function StripToken(x: Token): Token { L.Token(x.kind, x.value, 0, 0, 0, 0) }

  /** The tokens without their places. */
  function Strip(t: seq<Token>): seq<Token> { MapSeq(StripToken, t) }

  function MapParsed<T, U>(f: T -> U, r: Parsed<T>): Parsed<U> {
    match r
    case Ok((v, j)) => Ok((f(v), j))
    case Err(e) => Err(e)
  }

  // ---------------------------------------------------------------- functions that build no tree

  lemma StripLeaves(t: seq<Token>, i: nat, kind: string)
    ensures Take(Strip(t), i, kind) == MapParsed(StripToken, Take(t, i, kind))
    ensures Optional(Strip(t), i, kind) == Optional(t, i, kind)
    ensures Ident(Strip(t), i) == Ident(t, i)
    ensures StringOrIdent(Strip(t), i) == StringOrIdent(t, i)
    ensures ParseFlag(Strip(t), i) == ParseFlag(t, i)
    ensures i < |t| ==> Key(Strip(t), i) == Key(t, i)
  {
  }

  lemma StripRefuse<T>(t: seq<Token>, i: nat)
    ensures Refuse<T>(Strip(t), i) == Refuse<T>(t, i)
  {
  }

  lemma {:induction false} StripListItems(t: seq<Token>, i: nat, vals: seq<string>)
    ensures ListItems(Strip(t), i, vals) == ListItems(t, i, vals)
    decreases |t| - i
  {
    StripLeaves(t, i, ",");
    if StringOrIdent(t, i).Ok? {
      var (v, j) := StringOrIdent(t, i).value;
      StripLeaves(t, j, ",");
      hide Strip, StringOrIdent, Optional;
      if Optional(t, j, ",").Ok? && Optional(t, j, ",").value != j {
        StripListItems(t, Optional(t, j, ",").value, vals + [v]);
      }
    }
  }

  lemma StripList(t: seq<Token>, i: nat)
    ensures ParseList(Strip(t), i) == ParseList(t, i)
  {
    StripLeaves(t, i, "[");
    if Take(t, i, "[").Ok? {
      var j := Take(t, i, "[").value.1;
      StripListItems(t, j, []);
      if ListItems(t, j, []).Ok? { StripLeaves(t, ListItems(t, j, []).value.1, "]"); }
      hide ListItems, Take;
    }
  }

  lemma StripAssignment(t: seq<Token>, i: nat)
    ensures Assignment(Strip(t), i) == Assignment(t, i)
  {
    StripLeaves(t, i, "=");
    if Ident(t, i).Ok? {
      var j := Ident(t, i).value.1;
      StripLeaves(t, j, "=");
      if Take(t, j, "=").Ok? { StripLeaves(t, Take(t, j, "=").value.1, "="); }
    }
    hide Strip, Ident, Take, StringOrIdent;
  }

  lemma {:induction false} StripOrganizationFields(t: seq<Token>, i: nat, code: string, name: string)
    ensures OrganizationFields(Strip(t), i, code, name) == OrganizationFields(t, i, code, name)
    decreases |t| - i
  {
    StripAssignment(t, i);
    hide Assignment;
    if i < |t| && t[i].kind !in ORGANIZATION_ENDS && Assignment(t, i).Ok? {
      var (key, val, j) := Assignment(t, i).value;
      if key == "code" { StripOrganizationFields(t, j, val, name); }
      else if key == "name" { StripOrganizationFields(t, j, code, val); }
    }
  }

  lemma StripDomainField(t: seq<Token>, i: nat, key: string, f: DomainFields)
    ensures DomainField(Strip(t), i, key, f) == DomainField(t, i, key, f)
  {
    StripLeaves(t, i, "");
    StripList(t, i);
    StripRefuse<DomainFields>(t, i);
    hide Strip, StringOrIdent, ParseList, ParseFlag, Refuse;
  }

  lemma {:induction false} StripDomainFields(t: seq<Token>, i: nat, f: DomainFields)
    ensures ParseDomainFields(Strip(t), i, f) == ParseDomainFields(t, i, f)
    decreases |t| - i
  {
    if i < |t| && t[i].kind != "}" {
      StripLeaves(t, i, "");
      StripLeaves(t, Key(t, i).1, "=");
      var taken := Take(t, Key(t, i).1, "=");
      hide Key, Take, DomainField, Optional;
      if taken.Ok? {
        StripDomainField(t, taken.value.1, Key(t, i).0, f);
        var field := DomainField(t, taken.value.1, Key(t, i).0, f);
        if field.Ok? {
          StripLeaves(t, field.value.1, ";");
          var next := Optional(t, field.value.1, ";");
          if next.Ok? { StripDomainFields(t, next.value, field.value.0); }
        }
      }
    }
  }

  lemma {:induction false} StripStepFields(t: seq<Token>, i: nat, action: string, approval: bool)
    ensures ParseStepFields(Strip(t), i, action, approval) == ParseStepFields(t, i, action, approval)
    decreases |t| - i
  {
    if i < |t| && t[i].kind != "}" {
      StripLeaves(t, i, "");
      var (key, j) := Key(t, i);
      StripLeaves(t, j, ";");
      StripLeaves(t, j, "=");
      hide Key, Take, StringOrIdent, Optional;
      if key == "approval" {
        if Optional(t, j, ";").Ok? { StripStepFields(t, Optional(t, j, ";").value, action, true); }
      } else if Take(t, j, "=").Ok? {
        var k := Take(t, j, "=").value.1;
        StripLeaves(t, k, "");
        if StringOrIdent(t, k).Ok? {
          var (v, l) := StringOrIdent(t, k).value;
          StripLeaves(t, l, ";");
          if Optional(t, l, ";").Ok? { StripStepFields(t, Optional(t, l, ";").value, v, approval); }
        }
      }
    }
  }

  // ---------------------------------------------------------------- functions that build trees

  function PlainOrganization(o: Organization): Organization { o.(span := NOWHERE) }

  lemma StripOrganization(t: seq<Token>, i: nat)
    ensures ParseOrganization(Strip(t), i) == MapParsed(PlainOrganization, ParseOrganization(t, i))
  {
    StripLeaves(t, i, "organization");
    if Take(t, i, "organization").Ok? {
      StripOrganizationFields(t, Take(t, i, "organization").value.1, "", "");
      hide OrganizationFields;
    }
  }

  lemma StripHead(t: seq<Token>, i: nat, keyword: string, opener: string)
    ensures Head(Strip(t), i, keyword, opener) ==
      match Head(t, i, keyword, opener)
      case Ok((a, name, j)) => Ok((StripToken(a), name, j))
      case Err(e) => Err(e)
  {
    StripLeaves(t, i, keyword);
    if Take(t, i, keyword).Ok? {
      var j := Take(t, i, keyword).value.1;
      StripLeaves(t, j, opener);
      if Ident(t, j).Ok? { StripLeaves(t, Ident(t, j).value.1, opener); }
    }
    hide Strip, Take, Ident;
  }

  lemma StripDomain(t: seq<Token>, i: nat)
    ensures ParseDomain(Strip(t), i) == MapParsed(PlainDomain, ParseDomain(t, i))
  {
    StripHead(t, i, "domain", "{");
    hide Head, ParseDomainFields;
    if Head(t, i, "domain", "{").Ok? {
      StripDomainFields(t, Head(t, i, "domain", "{").value.2, DomainFields(None, [], None, true));
    }
  }

  lemma StripStep(t: seq<Token>, i: nat)
    ensures ParseStep(Strip(t), i) == MapParsed(PlainStep, ParseStep(t, i))
  {
    StripHead(t, i, "step", "{");
    hide Head, ParseStepFields;
    if Head(t, i, "step", "{").Ok? {
      StripStepFields(t, Head(t, i, "step", "{").value.2, "", false);
    }
  }

  function PlainFields(f: WorkflowFields): WorkflowFields { f.(steps := MapSeq(PlainStep, f.steps)) }

  lemma StripWorkflowField(t: seq<Token>, i: nat, key: string, f: WorkflowFields)
    ensures WorkflowField(Strip(t), i, key, PlainFields(f)) == MapParsed(PlainFields, WorkflowField(t, i, key, f))
  {
    StripLeaves(t, i, "");
    StripRefuse<WorkflowFields>(t, i);
    hide Strip, StringOrIdent, ParseFlag, MapSeq;
  }

  lemma {:induction false} StripWorkflowItems(t: seq<Token>, i: nat, f: WorkflowFields)
    ensures ParseWorkflowItems(Strip(t), i, PlainFields(f)) == MapParsed(PlainFields, ParseWorkflowItems(t, i, f))
    decreases |t| - i
  {
    if i < |t| && t[i].kind == "step" {
      StripStep(t, i);
      hide ParseStep;
      if ParseStep(t, i).Ok? {
        var (s, j) := ParseStep(t, i).value;
        StripWorkflowItems(t, j, f.(steps := f.steps + [s]));
        assert PlainFields(f.(steps := f.steps + [s]))
               == PlainFields(f).(steps := PlainFields(f).steps + [PlainStep(s)]);
      }
    } else if i < |t| && t[i].kind != "}" {
      StripLeaves(t, i, "");
      StripLeaves(t, Key(t, i).1, "=");
      var taken := Take(t, Key(t, i).1, "=");
      hide Key, Take, WorkflowField, Optional;
      if taken.Ok? {
        StripWorkflowField(t, taken.value.1, Key(t, i).0, f);
        var field := WorkflowField(t, taken.value.1, Key(t, i).0, f);
        if field.Ok? {
          StripLeaves(t, field.value.1, ";");
          var next := Optional(t, field.value.1, ";");
          if next.Ok? { StripWorkflowItems(t, next.value, field.value.0); }
        }
      }
    }
  }

  lemma StripWorkflow(t: seq<Token>, i: nat)
    ensures ParseWorkflow(Strip(t), i) == MapParsed(PlainWorkflow, ParseWorkflow(t, i))
  {
    StripHead(t, i, "workflow", "{");
    hide Head, ParseWorkflowItems;
    if Head(t, i, "workflow", "{").Ok? {
      var f := WorkflowFields("", [], None, true);
      assert PlainFields(f) == f;
      StripWorkflowItems(t, Head(t, i, "workflow", "{").value.2, f);
    }
  }

  lemma StripPolicy(t: seq<Token>, i: nat)
    ensures ParsePolicy(Strip(t), i) == MapParsed(PlainPolicy, ParsePolicy(t, i))
  {
    StripHead(t, i, "policy", "=");
    hide Head, ParseList;
    if Head(t, i, "policy", "=").Ok? { StripList(t, Head(t, i, "policy", "=").value.2); }
  }

  lemma StripScalar(t: seq<Token>, i: nat)
    ensures ParseScalar(Strip(t), i) == MapParsed(PlainValue, ParseScalar(t, i))
  {
  }

  lemma StripMetadata(t: seq<Token>, i: nat)
    ensures ParseMetadata(Strip(t), i) == MapParsed(PlainMetadata, ParseMetadata(t, i))
  {
    StripHead(t, i, "metadata", "=");
    hide Head, ParseScalar;
    if Head(t, i, "metadata", "=").Ok? { StripScalar(t, Head(t, i, "metadata", "=").value.2); }
  }

  function PlainItems(x: Items): Items {
    Items(if x.organization.Some? then Some(PlainOrganization(x.organization.value)) else None,
          MapSeq(PlainDomain, x.domains), MapSeq(PlainWorkflow, x.workflows), MapSeq(PlainPolicy, x.policies),
              MapSeq(PlainMetadata, x.metadata))
  }

  lemma MapSnoc<T, U>(f: T -> U, s: seq<T>, x: T)
    ensures MapSeq(f, s + [x]) == MapSeq(f, s) + [f(x)]
  {
  }

  lemma PlainAddOrganization(x: Items, o: Organization)
    ensures PlainItems(x.(organization := Some(o))) == PlainItems(x).(organization := Some(PlainOrganization(o)))
  {
  }

  lemma PlainAddDomain(x: Items, d: Domain)
    ensures PlainItems(x.(domains := x.domains + [d]))
            == PlainItems(x).(domains := PlainItems(x).domains + [PlainDomain(d)])
  {
    MapSnoc(PlainDomain, x.domains, d);
  }

  lemma PlainAddWorkflow(x: Items, w: Workflow)
    ensures PlainItems(x.(workflows := x.workflows + [w]))
            == PlainItems(x).(workflows := PlainItems(x).workflows + [PlainWorkflow(w)])
  {
    MapSnoc(PlainWorkflow, x.workflows, w);
  }

  lemma PlainAddPolicy(x: Items, p: Policy)
    ensures PlainItems(x.(policies := x.policies + [p]))
            == PlainItems(x).(policies := PlainItems(x).policies + [PlainPolicy(p)])
  {
    MapSnoc(PlainPolicy, x.policies, p);
  }

  lemma PlainAddMetadata(x: Items, m: Metadata)
    ensures PlainItems(x.(metadata := x.metadata + [m]))
            == PlainItems(x).(metadata := PlainItems(x).metadata + [PlainMetadata(m)])
  {
    MapSnoc(PlainMetadata, x.metadata, m);
  }

  lemma StripItem(t: seq<Token>, i: nat, x: Items)
    ensures ParseItem(Strip(t), i, PlainItems(x)) == MapParsed(PlainItems, ParseItem(t, i, x))
  {
    StripRefuse<Items>(t, i);
    assert |Strip(t)| == |t| && (i < |t| ==> Strip(t)[i].kind == t[i].kind);
    hide ParseOrganization, ParseDomain, ParseWorkflow, ParsePolicy, ParseMetadata, Strip, Refuse, PlainItems;
    hide PlainOrganization, PlainDomain, PlainWorkflow, PlainPolicy, PlainMetadata;
    if i < |t| {
      match t[i].kind {
        case "organization" =>
          StripOrganization(t, i);
          if ParseOrganization(t, i).Ok? { PlainAddOrganization(x, ParseOrganization(t, i).value.0); }
        case "domain" =>
          StripDomain(t, i);
          if ParseDomain(t, i).Ok? { PlainAddDomain(x, ParseDomain(t, i).value.0); }
        case "workflow" =>
          StripWorkflow(t, i);
          if ParseWorkflow(t, i).Ok? { PlainAddWorkflow(x, ParseWorkflow(t, i).value.0); }
        case "policy" =>
          StripPolicy(t, i);
          if ParsePolicy(t, i).Ok? { PlainAddPolicy(x, ParsePolicy(t, i).value.0); }
        case "metadata" =>
          StripMetadata(t, i);
          if ParseMetadata(t, i).Ok? { PlainAddMetadata(x, ParseMetadata(t, i).value.0); }
        case _ =>
      }
    }
  }

  lemma {:induction false} StripItems(t: seq<Token>, i: nat, x: Items)
    ensures ParseItems(Strip(t), i, PlainItems(x)) == MapParsed(PlainItems, ParseItems(t, i, x))
    decreases |t| - i
  {
    StripItem(t, i, x);
    hide ParseItem, PlainItems, Optional;
    if i < |t| && t[i].kind != "}" && ParseItem(t, i, x).Ok? {
      var (y, j) := ParseItem(t, i, x).value;
      StripLeaves(t, j, ";");
      if Optional(t, j, ";").Ok? { StripItems(t, Optional(t, j, ";").value, y); }
    }
  }

  lemma StripModuleHead(t: seq<Token>)
    ensures ModuleHead(Strip(t)) ==
      match ModuleHead(t)
      case Ok((a, name, version, i)) => Ok((StripToken(a), name, version, i))
      case Err(e) => Err(e)
  {
    StripHead(t, 0, "module", "version");
    hide Head;
    if Head(t, 0, "module", "version").Ok? {
      var i := Head(t, 0, "module", "version").value.2;
      StripLeaves(t, i, "");
      if StringOrIdent(t, i).Ok? { StripLeaves(t, StringOrIdent(t, i).value.1, "{"); }
    }
    hide Strip, Take, StringOrIdent;
  }

  /** Parsing tokens without places gives the tree without places. */
  lemma StripParse(t: seq<Token>)
    ensures Parse(t).Ok? <==> Parse(Strip(t)).Ok?
    ensures Parse(t).Ok? ==> Parse(Strip(t)).value == Plain(Parse(t).value)
    ensures Parse(t).Err? ==> Parse(Strip(t)) == Parse(t)
  {
    StripModuleHead(t);
    hide ModuleHead, ParseItems;
    if ModuleHead(t).Ok? {
      var x := Items(None, [], [], [], []);
      assert PlainItems(x) == x;
      StripItems(t, ModuleHead(t).value.3, x);
    }
  }

  /** Main result: sources with the same token kinds and values have the same tree up to places, and the
      parser refuses both or neither. */
  lemma TreeFromTokens(t: seq<Token>, u: seq<Token>)
    requires L.SameTokens(t, u)
    ensures Parse(t).Ok? <==> Parse(u).Ok?
    ensures Parse(t).Ok? ==> Plain(Parse(t).value) == Plain(Parse(u).value)
  {
    StripParse(t);
    StripParse(u);
    assert Strip(t) == Strip(u) by { assert forall k :: 0 <= k < |t| ==> StripToken(t[k]) == StripToken(u[k]); }
    hide Parse, Plain, Strip;
  }
}
