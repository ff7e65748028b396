/** Where the parts of a tree stand: each span runs over the tokens of its own declaration, and declarations of one
    kind follow one another. */
module HusSpans {
  import opened HusAst
  import opened HusParser
  import opened Outcomes
  import F = HusFrontEnd
  import L = HusLexer

  // ---------------------------------------------------------------- spans

  /** From a keyword to a closing brace. */
  ghost predicate Braces(t: seq<Token>, x: Span, keyword: string) {
    exists a, b :: 0 <= a < b < |t| && t[a].kind == keyword && t[b].kind == "}"
                   && x == Span(t[a].start, t[b].end, t[a].line, t[a].column)
  }

  /** From a keyword to the token after a list. */
  ghost predicate Listed(t: seq<Token>, x: Span, keyword: string) {
    exists a, b :: 0 <= a < b < |t| && t[a].kind == keyword && t[b - 1].kind == "]"
                   && x == Span(t[a].start, t[b].start, t[a].line, t[a].column)
  }

  /** From a keyword to the first token that can end an organization. */
  ghost predicate UpToEnd(t: seq<Token>, x: Span, keyword: string) {
    exists a, b :: 0 <= a < b < |t| && t[a].kind == keyword && t[b].kind in ORGANIZATION_ENDS
                   && (forall k :: a < k < b ==> t[k].kind !in ORGANIZATION_ENDS)
                   && x == Span(t[a].start, t[b].start, t[a].line, t[a].column)
  }

  /** One token. */
  ghost predicate OneToken(t: seq<Token>, x: Span) { exists a :: 0 <= a < |t| && x == TokenSpan(t[a]) }

  ghost predicate StepsPlaced(t: seq<Token>, steps: seq<StepDecl>) {
    forall s :: s in steps ==> Braces(t, s.span, "step")
  }

  ghost predicate ItemsPlaced(t: seq<Token>, x: Items) {
    && (x.organization.Some? ==> UpToEnd(t, x.organization.value.span, "organization"))
    && (forall d :: d in x.domains ==> Braces(t, d.span, "domain"))
    && (forall w :: w in x.workflows ==> Braces(t, w.span, "workflow") && StepsPlaced(t, w.steps))
    && (forall p :: p in x.policies ==> Listed(t, p.span, "policy"))
    && (forall m :: m in x.metadata ==> OneToken(t, m.value.span))
  }

  lemma HeadToken(t: seq<Token>, i: nat, keyword: string, opener: string)
    requires Head(t, i, keyword, opener).Ok?
    ensures i < |t| && t[i].kind == keyword && Head(t, i, keyword, opener).value.2 == i + 3
  {
  }

  lemma DomainPlaced(t: seq<Token>, i: nat)
    requires ParseDomain(t, i).Ok?
    ensures Braces(t, ParseDomain(t, i).value.0.span, "domain")
    ensures ParseDomain(t, i).value.0.span
            == Span(t[i].start, t[ParseDomain(t, i).value.1 - 1].end, t[i].line, t[i].column)
  {
    HeadToken(t, i, "domain", "{");
    hide Head, ParseDomainFields;
  }

  lemma StepPlaced(t: seq<Token>, i: nat)
    requires ParseStep(t, i).Ok?
    ensures Braces(t, ParseStep(t, i).value.0.span, "step")
    ensures ParseStep(t, i).value.0.span == Span(t[i].start, t[ParseStep(t, i).value.1 - 1].end, t[i].line, t[i].column)
  {
    HeadToken(t, i, "step", "{");
    hide Head, ParseStepFields;
  }

  lemma PolicyPlaced(t: seq<Token>, i: nat)
    requires ParsePolicy(t, i).Ok?
    ensures Listed(t, ParsePolicy(t, i).value.0.span, "policy")
    ensures ParsePolicy(t, i).value.0.span
            == Span(t[i].start, t[ParsePolicy(t, i).value.1].start, t[i].line, t[i].column)
  {
    HeadToken(t, i, "policy", "=");
    hide Head, ListItems;
  }

  lemma MetadataPlaced(t: seq<Token>, i: nat)
    requires ParseMetadata(t, i).Ok?
    ensures OneToken(t, ParseMetadata(t, i).value.0.value.span)
  {
    HeadToken(t, i, "metadata", "=");
    hide Head;
  }

  lemma {:induction false} OrganizationPlain(t: seq<Token>, i: nat, code: string, name: string)
    requires OrganizationFields(t, i, code, name).Ok?
    ensures var j := OrganizationFields(t, i, code, name).value.2;
            t[j].kind in ORGANIZATION_ENDS && forall k :: i <= k < j ==> t[k].kind !in ORGANIZATION_ENDS
    decreases |t| - i
  {
    if t[i].kind !in ORGANIZATION_ENDS {
      var (key, val, j) := Assignment(t, i).value;
      assert j == i + 3 && t[i + 1].kind == "=" && t[i + 2].kind in {"STRING", "IDENT"};
      if key == "code" { OrganizationPlain(t, j, val, name); } else { OrganizationPlain(t, j, code, val); }
    }
  }

  lemma OrganizationPlaced(t: seq<Token>, i: nat)
    requires ParseOrganization(t, i).Ok?
    ensures UpToEnd(t, ParseOrganization(t, i).value.0.span, "organization")
  {
    var j := Take(t, i, "organization").value.1;
    OrganizationPlain(t, j, "", "");
    hide OrganizationFields;
    var k := ParseOrganization(t, i).value.1;
    assert t[i].kind == "organization" && i < k && t[k].kind in ORGANIZATION_ENDS;
  }

  // ---------------------------------------------------------------- one after the other

  /** Tokens as the lexer leaves them, by their places. */
  ghost predicate InOrder(t: seq<Token>) {
    && (forall k :: 0 <= k < |t| ==> t[k].start <= t[k].end)
    && forall j, k :: 0 <= j < k < |t| ==> t[j].end <= t[k].start
  }

  /** The spans of the parts lie between two places, one after the other. */
  ghost predicate Ascend<T(!new)>(span: T -> Span, s: seq<T>, low: nat, high: nat) {
    && low <= high
    && (forall i :: 0 <= i < |s| ==> low <= span(s[i]).start <= span(s[i]).end <= high)
    && forall i, j :: 0 <= i < j < |s| ==> span(s[i]).end <= span(s[j]).start
  }

  lemma AscendMore<T(!new)>(span: T -> Span, s: seq<T>, low: nat, mid: nat, high: nat)
    requires Ascend(span, s, low, mid) && mid <= high
    ensures Ascend(span, s, low, high)
  {
  }

  lemma AscendSnoc<T(!new)>(span: T -> Span, s: seq<T>, x: T, low: nat, mid: nat, high: nat)
    requires Ascend(span, s, low, mid) && mid <= span(x).start <= span(x).end <= high
    ensures Ascend(span, s + [x], low, high)
  {
  }

  function StepSpan(s: StepDecl): Span { s.span }

  function DomainSpan(d: Domain): Span { d.span }

  function WorkflowSpan(w: Workflow): Span { w.span }

  function PolicySpan(p: Policy): Span { p.span }

  lemma LaterToken(t: seq<Token>, i: nat, j: nat)
    requires InOrder(t) && i <= j < |t|
    ensures t[i].start <= t[j].start && t[i].start <= t[j].end && (i < j ==> t[i].end <= t[j].start)
  {
  }

  lemma {:induction false} StepsInOrder(t: seq<Token>, i: nat, f: WorkflowFields, low: nat)
    requires InOrder(t) && ParseWorkflowItems(t, i, f).Ok?
    requires StepsPlaced(t, f.steps) && Ascend(StepSpan, f.steps, low, t[i].start)
    ensures var (g, j) := ParseWorkflowItems(t, i, f).value;
            StepsPlaced(t, g.steps) && Ascend(StepSpan, g.steps, low, t[j].start)
    decreases |t| - i
  {
    hide InOrder, Ascend, ParseStep, Braces, Take, Key, Optional;
    if t[i].kind == "step" {
      StepPlaced(t, i);
      var (s, j) := ParseStep(t, i).value;
      LaterToken(t, i, j - 1);
      LaterToken(t, j - 1, j);
      AscendSnoc(StepSpan, f.steps, s, low, t[i].start, t[j].start);
      StepsInOrder(t, j, f.(steps := f.steps + [s]), low);
    } else if t[i].kind != "}" {
      var j := Take(t, Key(t, i).1, "=").value.1;
      var (g, k) := WorkflowField(t, j, Key(t, i).0, f).value;
      assert g.steps == f.steps;
      hide WorkflowField;
      var l := Optional(t, k, ";").value;
      LaterToken(t, i, l);
      AscendMore(StepSpan, f.steps, low, t[i].start, t[l].start);
      StepsInOrder(t, l, g, low);
    }
  }

  lemma WorkflowPlaced(t: seq<Token>, i: nat)
    requires InOrder(t) && ParseWorkflow(t, i).Ok?
    ensures var (w, j) := ParseWorkflow(t, i).value;
            && Braces(t, w.span, "workflow") && StepsPlaced(t, w.steps)
            && Ascend(StepSpan, w.steps, w.span.start, w.span.end)
            && w.span == Span(t[i].start, t[j - 1].end, t[i].line, t[i].column)
  {
    HeadToken(t, i, "workflow", "{");
    var f := WorkflowFields("", [], None, true);
    hide Head, ParseWorkflowItems, InOrder, Ascend;
    var k := ParseWorkflowItems(t, i + 3, f).value.1;
    LaterToken(t, i, i + 3);
    NoSpans(StepSpan, t[i].start, t[i + 3].start);
    StepsInOrder(t, i + 3, f, t[i].start);
    LaterToken(t, k, k);
    AscendMore(StepSpan, ParseWorkflowItems(t, i + 3, f).value.0.steps, t[i].start, t[k].start, t[k].end);
  }

  lemma NoSpans<T(!new)>(span: T -> Span, low: nat, high: nat)
    requires low <= high
    ensures Ascend(span, [], low, high)
  {
  }

  /** The declarations so far, all before a place. */
  ghost predicate ItemsInOrder(x: Items, low: nat, high: nat) {
    && Ascend(DomainSpan, x.domains, low, high) && Ascend(WorkflowSpan, x.workflows, low, high)
    && Ascend(PolicySpan, x.policies, low, high)
    && forall w :: w in x.workflows ==> Ascend(StepSpan, w.steps, w.span.start, w.span.end)
  }

  lemma ItemsMore(x: Items, low: nat, mid: nat, high: nat)
    requires ItemsInOrder(x, low, mid) && mid <= high
    ensures ItemsInOrder(x, low, high)
  {
    hide Ascend;
    AscendMore(DomainSpan, x.domains, low, mid, high);
    AscendMore(WorkflowSpan, x.workflows, low, mid, high);
    AscendMore(PolicySpan, x.policies, low, mid, high);
  }

  /** One declaration: what it adds is in its place, and ends before the next token. */
  lemma ItemPlaced(t: seq<Token>, i: nat, x: Items, low: nat)
    requires InOrder(t) && ParseItem(t, i, x).Ok? && ParseItem(t, i, x).value.1 < |t|
    requires ItemsPlaced(t, x) && ItemsInOrder(x, low, t[i].start)
    ensures var (y, j) := ParseItem(t, i, x).value; ItemsPlaced(t, y) && ItemsInOrder(y, low, t[j].start)
  {
    hide InOrder, Ascend, Braces, Listed, UpToEnd, OneToken, ParseOrganization, ParseDomain, ParseWorkflow, ParsePolicy,
         ParseMetadata, StepsPlaced;
    var j := ParseItem(t, i, x).value.1;
    LaterToken(t, i, j);
    LaterToken(t, i, j - 1);
    LaterToken(t, j - 1, j);
    ItemsMore(x, low, t[i].start, t[j].start);
    match t[i].kind {
      case "organization" => OrganizationPlaced(t, i);
      case "domain" =>
        DomainPlaced(t, i);
        AscendSnoc(DomainSpan, x.domains, ParseDomain(t, i).value.0, low, t[i].start, t[j].start);
      case "workflow" =>
        WorkflowPlaced(t, i);
        AscendSnoc(WorkflowSpan, x.workflows, ParseWorkflow(t, i).value.0, low, t[i].start, t[j].start);
      case "policy" =>
        PolicyPlaced(t, i);
        AscendSnoc(PolicySpan, x.policies, ParsePolicy(t, i).value.0, low, t[i].start, t[j].start);
      case "metadata" => MetadataPlaced(t, i);
      case _ =>
    }
  }

  lemma {:induction false} ItemsPlacedInOrder(t: seq<Token>, i: nat, x: Items, low: nat)
    requires InOrder(t) && ParseItems(t, i, x).Ok? && ItemsPlaced(t, x) && ItemsInOrder(x, low, t[i].start)
    ensures var (y, j) := ParseItems(t, i, x).value;
            t[j].kind == "}" && ItemsPlaced(t, y) && ItemsInOrder(y, low, t[j].start)
    decreases |t| - i
  {
    hide InOrder, ItemsPlaced, ItemsInOrder, ParseItem, Optional;
    if t[i].kind != "}" {
      var (y, j) := ParseItem(t, i, x).value;
      OptionalHere(t, j);
      ItemPlaced(t, i, x, low);
      var k := Optional(t, j, ";").value;
      LaterToken(t, j, k);
      ItemsMore(y, low, t[j].start, t[k].start);
      ItemsPlacedInOrder(t, k, y, low);
    }
  }

  lemma OptionalHere(t: seq<Token>, i: nat)
    requires Optional(t, i, ";").Ok?
    ensures i < |t|
  {
  }

  /** Every declaration of the tree has the span of its own tokens, and declarations of one kind, and the steps of a
      workflow, follow one another inside what encloses them. */
  ghost predicate Placed(t: seq<Token>, m: Module) {
    && Braces(t, m.span, "module")
    && ItemsPlaced(t, Items(Some(m.organization), m.domains, m.workflows, m.policies, m.metadata))
    && ItemsInOrder(Items(Some(m.organization), m.domains, m.workflows, m.policies, m.metadata),
                    m.span.start, m.span.end)
  }

  lemma TreeIsPlaced(t: seq<Token>)
    requires InOrder(t) && Parse(t).Ok?
    ensures Placed(t, Parse(t).value)
  {
    hide ParseItems, InOrder, ItemsPlaced, ItemsInOrder, Ascend, Head;
    HeadToken(t, 0, "module", "version");
    var x, i := Items(None, [], [], [], []), ModuleHead(t).value.3;
    hide ModuleHead;
    NothingPlaced(t, x);
    LaterToken(t, 0, i);
    NothingInOrder(x, t[0].start, t[i].start);
    ItemsPlacedInOrder(t, i, x, t[0].start);
    var j := ParseItems(t, i, x).value.1;
    LaterToken(t, j, j);
    ItemsMore(ParseItems(t, i, x).value.0, t[0].start, t[j].start, t[j].end);
  }

  lemma NothingPlaced(t: seq<Token>, x: Items)
    requires x == Items(None, [], [], [], [])
    ensures ItemsPlaced(t, x)
  {
  }

  lemma NothingInOrder(x: Items, low: nat, high: nat)
    requires x == Items(None, [], [], [], []) && low <= high
    ensures ItemsInOrder(x, low, high)
  {
  }

  // ---------------------------------------------------------------- source texts

  lemma {:induction false} TokensInOrder(source: string, i: nat, t: seq<Token>, decode: L.Decoder)
    requires i <= |source| && L.Tokenizes(source, i, t, decode)
    ensures InOrder(t) && forall k :: 0 <= k < |t| ==> i <= t[k].start
    decreases |t|
  {
    TokenStarts(source, i, t, decode);
    hide L.Tokenizes;
    if |t| > 1 {
      TokensInOrder(source, t[0].end, t[1..], decode);
      assert forall k :: 1 <= k < |t| ==> t[k] == t[1..][k - 1];
    }
  }

  lemma TokenStarts(source: string, i: nat, t: seq<Token>, decode: L.Decoder)
    requires i <= |source| && L.Tokenizes(source, i, t, decode)
    ensures t != [] && i <= t[0].start <= t[0].end
    ensures |t| > 1 ==> t[0].end <= |source| && L.Tokenizes(source, t[0].end, t[1..], decode)
  {
    hide L.Scan, L.Blank, L.LineOf, L.ColumnOf;
  }

  /** Main result: in the tree of a source text every declaration spans exactly its own text. */
  lemma TextIsPlaced(source: string, decode: L.Decoder)
    requires L.Lex(source, decode).Ok? && Parse(L.Lex(source, decode).value).Ok?
    ensures Placed(L.Lex(source, decode).value, Parse(L.Lex(source, decode).value).value)
  {
    hide *;
    F.LexedTokenizes(source, decode);
    TokensInOrder(source, 0, L.Lex(source, decode).value, decode);
    TreeIsPlaced(L.Lex(source, decode).value);
  }
}
