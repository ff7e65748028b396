/** Whatever the parser accepts was written by the grammar, and every tree it builds can be written again. */
module HusWriting {
  import opened HusAst
  import opened HusGrammar
  import opened HusReading
  import opened Outcomes
  import P = HusParser
  import L = HusLexer
  import S = HusSyntax

  // ---------------------------------------------------------------- the tokens of a lexer

  /** A token as the lexer makes them, its place apart: only literals and identifiers have a value that is not their
      kind, and no identifier is a keyword. */
  predicate Genuine(x: Token) {
    && Placeless(x)
    && (x.kind !in {"STRING", "IDENT", "NUMBER", "EOF"} ==> x.value == x.kind)
    && (x.kind == "IDENT" ==> x.value !in L.KEYWORDS)
  }

  ghost predicate AllGenuine(t: seq<Token>) { forall k :: 0 <= k < |t| ==> Genuine(t[k]) }

  lemma MarkRead(t: seq<Token>, i: nat, kind: string)
    requires AllGenuine(t) && i < |t| && t[i].kind == kind && kind !in {"STRING", "IDENT", "NUMBER", "EOF"}
    ensures t[i] == Mark(kind) && ReadsAt(t, i, [Mark(kind)])
  {
    assert Genuine(t[i]);
    OneRead(t, i, Mark(kind));
  }

  lemma TakeRead(t: seq<Token>, i: nat, kind: string)
    requires AllGenuine(t) && P.Take(t, i, kind).Ok? && kind !in {"STRING", "IDENT", "NUMBER", "EOF"}
    ensures P.Take(t, i, kind).value.1 == i + 1 && ReadsAt(t, i, [Mark(kind)])
  {
    MarkRead(t, i, kind);
  }

  lemma WordWritten(t: seq<Token>, i: nat) returns (w: Word)
    requires AllGenuine(t) && P.StringOrIdent(t, i).Ok?
    ensures P.StringOrIdent(t, i).value == (w.text, i + 1) && i < |t| && t[i] == WordToken(w)
    ensures ReadsAt(t, i, [WordToken(w)])
  {
    w := Word(t[i].kind == "STRING", t[i].value);
    assert Genuine(t[i]);
    OneRead(t, i, t[i]);
  }

  lemma SemiWritten(t: seq<Token>, i: nat) returns (semi: bool)
    requires AllGenuine(t) && P.Optional(t, i, ";").Ok?
    ensures P.Optional(t, i, ";").value == i + |Semi(semi)| && ReadsAt(t, i, Semi(semi))
  {
    semi := t[i].kind == ";";
    if semi { MarkRead(t, i, ";"); }
  }

  lemma FlagWritten(t: seq<Token>, i: nat)
    requires AllGenuine(t) && P.ParseFlag(t, i).Ok?
    ensures P.ParseFlag(t, i).value.1 == i + 1 && ReadsAt(t, i, [FlagToken(P.ParseFlag(t, i).value.0)])
  {
    MarkRead(t, i, t[i].kind);
  }

  lemma JoinOne<E>(tokens: E -> seq<Token>, e: E, rest: seq<E>)
    ensures Join(tokens, [e] + rest) == tokens(e) + Join(tokens, rest)
  {
    assert ([e] + rest)[1..] == rest;
  }

  // ---------------------------------------------------------------- lists

  lemma {:induction false} WordsWritten(t: seq<Token>, i: nat, before: seq<string>) returns (words: seq<Word>)
    requires AllGenuine(t) && P.ListItems(t, i, before).Ok?
    ensures words != [] && ReadsAt(t, i, WordTokens(words))
    ensures P.ListItems(t, i, before).value.1 == i + |WordTokens(words)|
    decreases |t| - i
  {
    hide AllGenuine, ReadsAt;
    var w := WordWritten(t, i);
    if i + 1 < |t| && t[i + 1].kind == "," {
      TakeRead(t, i + 1, ",");
      var rest := WordsWritten(t, i + 2, before + [w.text]);
      words := [w] + rest;
      assert words[1..] == rest;
      assert WordTokens(words) == [WordToken(w)] + ([Mark(",")] + WordTokens(rest));
      ReadsBoth(t, i + 1, [Mark(",")], WordTokens(rest));
      ReadsBoth(t, i, [WordToken(w)], [Mark(",")] + WordTokens(rest));
    } else {
      words := [w];
    }
  }

  lemma ListWritten(t: seq<Token>, i: nat) returns (words: seq<Word>)
    requires AllGenuine(t) && P.ParseList(t, i).Ok?
    ensures ReadsAt(t, i, ListTokens(words)) && P.ParseList(t, i).value.1 == i + |ListTokens(words)|
  {
    hide AllGenuine, ReadsAt, P.ListItems, WordTokens;
    TakeRead(t, i, "[");
    if t[i + 1].kind == "]" {
      words := [];
      NoTexts(words);
      MarkRead(t, i + 1, "]");
      ReadsBoth(t, i + 1, WordTokens(words), [Mark("]")]);
      assert WordTokens(words) + [Mark("]")] == [Mark("]")];
    } else {
      words := WordsWritten(t, i + 1, []);
      TakeRead(t, i + 1 + |WordTokens(words)|, "]");
      ReadsBoth(t, i + 1, WordTokens(words), [Mark("]")]);
    }
    ListParts(words);
    ReadsBoth(t, i, [Mark("[")], WordTokens(words) + [Mark("]")]);
  }

  // ---------------------------------------------------------------- domains

  /** A key that a field function accepts is a keyword, so it moved the cursor once. */
  lemma KeyWritten(t: seq<Token>, i: nat)
    requires AllGenuine(t) && i < |t| && P.Key(t, i).0 in L.KEYWORDS
    ensures P.Key(t, i) == (t[i].kind, i + 1) && t[i] == Mark(t[i].kind) && ReadsAt(t, i, [Mark(t[i].kind)])
  {
    assert Genuine(t[i]);
    NotKeywords();
    MarkRead(t, i, t[i].kind);
  }

  lemma NotKeywords()
    ensures {"STRING", "IDENT", "NUMBER", "EOF"} !! L.KEYWORDS
    ensures {"engine", "capabilities", "name", "enabled", "trigger", "action", "approval", "step"} <= L.KEYWORDS
    ensures "code" !in L.KEYWORDS
  {
  }

  lemma DomainValueWritten(t: seq<Token>, i: nat, key: string, f: P.DomainFields) returns (e: DomainEntry)
    requires AllGenuine(t) && P.DomainField(t, i, key, f).Ok?
    ensures DomainKey(e) == key && key in L.KEYWORDS && !e.semi
    ensures ReadsAt(t, i, DomainValue(e)) && P.DomainField(t, i, key, f).value.1 == i + |DomainValue(e)|
  {
    hide AllGenuine, ReadsAt, P.ParseList, ListTokens;
    NotKeywords();
    hide L.KEYWORDS;
    match key {
      case "engine" => var w := WordWritten(t, i); e := Engine(w, false);
      case "capabilities" => var words := ListWritten(t, i); e := Capabilities(words, false);
      case "name" => var w := WordWritten(t, i); e := DomainName(w, false);
      case "enabled" => FlagWritten(t, i); e := DomainEnabled(P.ParseFlag(t, i).value.0, false);
    }
  }

  /** A field, put together from what was read of it. */
  lemma FieldWritten(t: seq<Token>, i: nat, key: string, body: seq<Token>, semi: bool)
    requires ReadsAt(t, i, [Mark(key)]) && ReadsAt(t, i + 1, [Mark("=")]) && ReadsAt(t, i + 2, body)
    requires ReadsAt(t, i + 2 + |body|, Semi(semi))
    ensures ReadsAt(t, i, [Mark(key), Mark("=")] + (body + Semi(semi)))
  {
    assert [Mark(key)] + [Mark("=")] == [Mark(key), Mark("=")];
    ReadsBoth(t, i, [Mark(key)], [Mark("=")]);
    ReadsBoth(t, i + 2, body, Semi(semi));
    ReadsBoth(t, i, [Mark(key), Mark("=")], body + Semi(semi));
  }

  lemma DomainEntryWritten(t: seq<Token>, i: nat, f: P.DomainFields) returns (e: DomainEntry, g: P.DomainFields)
    requires AllGenuine(t) && P.ParseDomainFields(t, i, f).Ok? && t[i].kind != "}"
    ensures ReadsAt(t, i, DomainTokens(e)) && |DomainTokens(e)| > 0
    ensures P.ParseDomainFields(t, i, f) == P.ParseDomainFields(t, i + |DomainTokens(e)|, g)
  {
    hide AllGenuine, ReadsAt, P.DomainField, P.Optional, DomainTokens, DomainValue, DomainKey, L.KEYWORDS, Semi, P.Take,
         P.Key;
    var key, j := P.Key(t, i).0, P.Take(t, P.Key(t, i).1, "=").value.1;
    e := DomainValueWritten(t, j, key, f);
    KeyWritten(t, i);
    TakeRead(t, i + 1, "=");
    g := P.DomainField(t, j, key, f).value.0;
    var semi := SemiWritten(t, j + |DomainValue(e)|);
    FieldWritten(t, i, key, DomainValue(e), semi);
    e := WithSemi(e, semi);
    DomainParts(e);
  }

  lemma WithSemi(e: DomainEntry, semi: bool) returns (x: DomainEntry)
    ensures x.semi == semi && DomainKey(x) == DomainKey(e) && DomainValue(x) == DomainValue(e)
  {
    x := e.(semi := semi);
  }

  lemma {:induction false} DomainWrittenFrom(t: seq<Token>, i: nat, f: P.DomainFields)
    returns (entries: seq<DomainEntry>)
    requires AllGenuine(t) && P.ParseDomainFields(t, i, f).Ok?
    ensures ReadsAt(t, i, Join(DomainTokens, entries))
    ensures P.ParseDomainFields(t, i, f).value.1 == i + |Join(DomainTokens, entries)|
    decreases |t| - i
  {
    hide *;
    if t[i].kind == "}" {
      entries := [];
      NothingRead(t, i, DomainTokens);
      MarkRead(t, i, "}");
      DomainEnds(t, i, f);
    } else {
      var e, g := DomainEntryWritten(t, i, f);
      EntryEnds(t, i, DomainTokens(e));
      var rest := DomainWrittenFrom(t, i + |DomainTokens(e)|, g);
      JoinOne(DomainTokens, e, rest);
      ReadsBoth(t, i, DomainTokens(e), Join(DomainTokens, rest));
      entries := [e] + rest;
    }
  }

  lemma NothingRead<E>(t: seq<Token>, i: nat, tokens: E -> seq<Token>)
    requires i <= |t|
    ensures Join(tokens, []) == [] && ReadsAt(t, i, Join(tokens, []))
  {
  }

  lemma EntryEnds(t: seq<Token>, i: nat, piece: seq<Token>)
    requires ReadsAt(t, i, piece)
    ensures i + |piece| <= |t|
  {
  }

  // ---------------------------------------------------------------- names and braces

  lemma HeadWritten(t: seq<Token>, i: nat, keyword: string, opener: string) returns (name: Label)
    requires AllGenuine(t) && P.Head(t, i, keyword, opener).Ok?
    requires keyword !in {"STRING", "IDENT", "NUMBER", "EOF"} && opener !in {"STRING", "IDENT", "NUMBER", "EOF"}
    ensures P.Head(t, i, keyword, opener).value.2 == i + 3
    ensures ReadsAt(t, i, [Mark(keyword), LabelToken(name), Mark(opener)])
  {
    TakeRead(t, i, keyword);
    name := Label(t[i + 1].kind, t[i + 1].value);
    assert Genuine(t[i + 1]);
    TakeRead(t, i + 2, opener);
    OneRead(t, i, Mark(keyword));
    OneRead(t, i + 2, Mark(opener));
    ThreeRead(t, i, Mark(keyword), LabelToken(name), Mark(opener));
  }

  lemma BracedWritten(t: seq<Token>, i: nat, keyword: string, name: Label, body: seq<Token>)
    requires ReadsAt(t, i, [Mark(keyword), LabelToken(name), Mark("{")]) && ReadsAt(t, i + 3, body)
    requires AllGenuine(t) && i + 3 + |body| < |t| && t[i + 3 + |body|].kind == "}"
    ensures ReadsAt(t, i, Braced(keyword, name, body)) && |Braced(keyword, name, body)| == |body| + 4
  {
    hide ReadsAt, AllGenuine;
    MarkRead(t, i + 3 + |body|, "}");
    ReadsBoth(t, i, [Mark(keyword), LabelToken(name), Mark("{")], body);
    ReadsBoth(t, i, [Mark(keyword), LabelToken(name), Mark("{")] + body, [Mark("}")]);
  }

  lemma DomainWritten(t: seq<Token>, i: nat) returns (name: Label, entries: seq<DomainEntry>)
    requires AllGenuine(t) && P.ParseDomain(t, i).Ok?
    ensures ReadsAt(t, i, Braced("domain", name, Join(DomainTokens, entries)))
    ensures P.ParseDomain(t, i).value.1 == i + |Braced("domain", name, Join(DomainTokens, entries))|
  {
    hide AllGenuine, ReadsAt, P.Head, P.ParseDomainFields, Join, Braced;
    name := HeadWritten(t, i, "domain", "{");
    entries := DomainWrittenFrom(t, i + 3, NO_DOMAIN);
    BracedWritten(t, i, "domain", name, Join(DomainTokens, entries));
  }

  // ---------------------------------------------------------------- steps

  lemma StepEntryWritten(t: seq<Token>, i: nat, f: (string, bool)) returns (e: StepEntry, g: (string, bool))
    requires AllGenuine(t) && P.ParseStepFields(t, i, f.0, f.1).Ok? && t[i].kind != "}"
    ensures ReadsAt(t, i, StepTokens(e)) && |StepTokens(e)| > 0
    ensures P.ParseStepFields(t, i, f.0, f.1) == P.ParseStepFields(t, i + |StepTokens(e)|, g.0, g.1)
  {
    NotKeywords();
    hide AllGenuine, ReadsAt, P.Optional, L.KEYWORDS, Semi, P.Key, P.Take, P.StringOrIdent;
    var key := P.Key(t, i).0;
    KeyWritten(t, i);
    if key == "approval" {
      var semi := SemiWritten(t, i + 1);
      e, g := Approval(semi), (f.0, true);
      ReadsBoth(t, i, [Mark("approval")], Semi(semi));
    } else {
      TakeRead(t, i + 1, "=");
      var w := WordWritten(t, i + 2);
      var semi := SemiWritten(t, i + 3);
      e, g := Action(w, semi), (w.text, f.1);
      FieldWritten(t, i, "action", [WordToken(w)], semi);
      assert StepTokens(e) == [Mark("action"), Mark("=")] + ([WordToken(w)] + Semi(semi));
    }
  }

  lemma {:induction false} StepWrittenFrom(t: seq<Token>, i: nat, f: (string, bool)) returns (entries: seq<StepEntry>)
    requires AllGenuine(t) && P.ParseStepFields(t, i, f.0, f.1).Ok?
    ensures ReadsAt(t, i, Join(StepTokens, entries))
    ensures P.ParseStepFields(t, i, f.0, f.1).value.2 == i + |Join(StepTokens, entries)|
    decreases |t| - i
  {
    hide *;
    if t[i].kind == "}" {
      entries := [];
      NothingRead(t, i, StepTokens);
      MarkRead(t, i, "}");
      StepEnds(t, i, f);
    } else {
      var e, g := StepEntryWritten(t, i, f);
      EntryEnds(t, i, StepTokens(e));
      var rest := StepWrittenFrom(t, i + |StepTokens(e)|, g);
      JoinOne(StepTokens, e, rest);
      ReadsBoth(t, i, StepTokens(e), Join(StepTokens, rest));
      entries := [e] + rest;
    }
  }

  lemma StepWritten(t: seq<Token>, i: nat) returns (name: Label, entries: seq<StepEntry>)
    requires AllGenuine(t) && P.ParseStep(t, i).Ok?
    ensures ReadsAt(t, i, Braced("step", name, Join(StepTokens, entries)))
    ensures P.ParseStep(t, i).value.1 == i + |Braced("step", name, Join(StepTokens, entries))|
  {
    hide AllGenuine, ReadsAt, P.Head, P.ParseStepFields, Join, Braced;
    name := HeadWritten(t, i, "step", "{");
    entries := StepWrittenFrom(t, i + 3, NO_STEP);
    BracedWritten(t, i, "step", name, Join(StepTokens, entries));
  }

  // ---------------------------------------------------------------- workflows

  lemma WorkflowValueWritten(t: seq<Token>, i: nat, key: string, f: P.WorkflowFields) returns (e: WorkflowEntry)
    requires AllGenuine(t) && P.WorkflowField(t, i, key, f).Ok?
    ensures !e.Step? && WorkflowKey(e) == key && key in L.KEYWORDS
    ensures ReadsAt(t, i, [WorkflowToken(e)]) && P.WorkflowField(t, i, key, f).value.1 == i + 1
  {
    hide AllGenuine, ReadsAt;
    NotKeywords();
    hide L.KEYWORDS;
    match key {
      case "trigger" => var w := WordWritten(t, i); e := Trigger(w, false);
      case "name" => var w := WordWritten(t, i); e := WorkflowName(w, false);
      case "enabled" => FlagWritten(t, i); e := WorkflowEnabled(P.ParseFlag(t, i).value.0, false);
    }
  }

  lemma WorkflowWithSemi(e: WorkflowEntry, semi: bool) returns (x: WorkflowEntry)
    requires !e.Step?
    ensures !x.Step? && x.semi == semi && WorkflowKey(x) == WorkflowKey(e) && WorkflowToken(x) == WorkflowToken(e)
  {
    x := e.(semi := semi);
  }

  lemma WorkflowFieldWritten(t: seq<Token>, i: nat, f: P.WorkflowFields) returns (e: WorkflowEntry, g: P.WorkflowFields)
    requires AllGenuine(t) && P.ParseWorkflowItems(t, i, f).Ok? && t[i].kind !in {"}", "step"}
    ensures ReadsAt(t, i, WorkflowTokens(e)) && |WorkflowTokens(e)| > 0
    ensures P.ParseWorkflowItems(t, i, f) == P.ParseWorkflowItems(t, i + |WorkflowTokens(e)|, g)
  {
    hide AllGenuine, ReadsAt, P.WorkflowField, P.Optional, WorkflowTokens, WorkflowToken, WorkflowKey, L.KEYWORDS, Semi,
         P.Take, P.Key;
    var key, j := P.Key(t, i).0, P.Take(t, P.Key(t, i).1, "=").value.1;
    e := WorkflowValueWritten(t, j, key, f);
    KeyWritten(t, i);
    TakeRead(t, i + 1, "=");
    g := P.WorkflowField(t, j, key, f).value.0;
    var semi := SemiWritten(t, j + 1);
    FieldWritten(t, i, key, [WorkflowToken(e)], semi);
    e := WorkflowWithSemi(e, semi);
    WorkflowParts(e);
  }

  lemma WorkflowStepWritten(t: seq<Token>, i: nat, f: P.WorkflowFields) returns (e: WorkflowEntry, g: P.WorkflowFields)
    requires AllGenuine(t) && P.ParseWorkflowItems(t, i, f).Ok? && t[i].kind == "step"
    ensures ReadsAt(t, i, WorkflowTokens(e)) && |WorkflowTokens(e)| > 0
    ensures P.ParseWorkflowItems(t, i, f) == P.ParseWorkflowItems(t, i + |WorkflowTokens(e)|, g)
  {
    hide AllGenuine, ReadsAt, P.ParseStep, Join;
    var name, entries := StepWritten(t, i);
    e, g := Step(name, entries), f.(steps := f.steps + [P.ParseStep(t, i).value.0]);
  }

  lemma {:induction false} WorkflowWrittenFrom(t: seq<Token>, i: nat, f: P.WorkflowFields)
      returns (entries: seq<WorkflowEntry>)
    requires AllGenuine(t) && P.ParseWorkflowItems(t, i, f).Ok?
    ensures ReadsAt(t, i, Join(WorkflowTokens, entries))
    ensures P.ParseWorkflowItems(t, i, f).value.1 == i + |Join(WorkflowTokens, entries)|
    decreases |t| - i
  {
    hide *;
    if t[i].kind == "}" {
      entries := [];
      NothingRead(t, i, WorkflowTokens);
      MarkRead(t, i, "}");
      WorkflowEnds(t, i, f);
    } else {
      var e, g;
      if t[i].kind == "step" { e, g := WorkflowStepWritten(t, i, f); } else { e, g := WorkflowFieldWritten(t, i, f); }
      EntryEnds(t, i, WorkflowTokens(e));
      var rest := WorkflowWrittenFrom(t, i + |WorkflowTokens(e)|, g);
      JoinOne(WorkflowTokens, e, rest);
      ReadsBoth(t, i, WorkflowTokens(e), Join(WorkflowTokens, rest));
      entries := [e] + rest;
    }
  }

  lemma WorkflowWritten(t: seq<Token>, i: nat) returns (name: Label, entries: seq<WorkflowEntry>)
    requires AllGenuine(t) && P.ParseWorkflow(t, i).Ok?
    ensures ReadsAt(t, i, Braced("workflow", name, Join(WorkflowTokens, entries)))
    ensures P.ParseWorkflow(t, i).value.1 == i + |Braced("workflow", name, Join(WorkflowTokens, entries))|
  {
    hide AllGenuine, ReadsAt, P.Head, P.ParseWorkflowItems, Join, Braced;
    name := HeadWritten(t, i, "workflow", "{");
    entries := WorkflowWrittenFrom(t, i + 3, NO_WORKFLOW);
    BracedWritten(t, i, "workflow", name, Join(WorkflowTokens, entries));
  }

  // ---------------------------------------------------------------- organizations

  lemma OrganizationEntryWritten(t: seq<Token>, i: nat, f: (string, string))
      returns (e: OrganizationEntry, g: (string, string))
    requires AllGenuine(t) && P.OrganizationFields(t, i, f.0, f.1).Ok? && t[i].kind !in P.ORGANIZATION_ENDS
    ensures ReadsAt(t, i, OrganizationTokens(e)) && |OrganizationTokens(e)| == 3
    ensures P.OrganizationFields(t, i, f.0, f.1) == P.OrganizationFields(t, i + 3, g.0, g.1)
  {
    NotKeywords();
    assert Genuine(t[i]);
    TakeRead(t, i + 1, "=");
    var w := WordWritten(t, i + 2);
    OneRead(t, i + 1, Mark("="));
    if t[i].value == "code" {
      CodeKey(t[i]);
      e, g := OrganizationCode(w), (w.text, f.1);
    } else {
      NameKey(t[i]);
      e, g := OrganizationName(w), (f.0, w.text);
    }
    hide AllGenuine, ReadsAt;
    ThreeRead(t, i, t[i], Mark("="), WordToken(w));
  }

  lemma CodeKey(x: Token)
    requires Genuine(x) && (x.kind == "IDENT" || x.kind in P.NAMES) && x.value == "code"
    ensures x == Tok("IDENT", "code")
  {
    hide L.KEYWORDS;
  }

  lemma NameKey(x: Token)
    requires Genuine(x) && (x.kind == "IDENT" || x.kind in P.NAMES) && x.value == "name"
    ensures x == Mark("name")
  {
    NotKeywords();
    hide L.KEYWORDS;
  }

  lemma {:induction false} OrganizationWrittenFrom(t: seq<Token>, i: nat, f: (string, string))
      returns (fields: seq<OrganizationEntry>)
    requires AllGenuine(t) && P.OrganizationFields(t, i, f.0, f.1).Ok?
    ensures ReadsAt(t, i, Join(OrganizationTokens, fields))
    ensures P.OrganizationFields(t, i, f.0, f.1).value.2 == i + |Join(OrganizationTokens, fields)|
    decreases |t| - i
  {
    hide *;
    if t[i].kind in P.ORGANIZATION_ENDS {
      fields := [];
      NothingRead(t, i, OrganizationTokens);
      OrganizationEnds(t, i, f);
    } else {
      var e, g := OrganizationEntryWritten(t, i, f);
      EntryEnds(t, i, OrganizationTokens(e));
      var rest := OrganizationWrittenFrom(t, i + 3, g);
      JoinOne(OrganizationTokens, e, rest);
      ReadsBoth(t, i, OrganizationTokens(e), Join(OrganizationTokens, rest));
      fields := [e] + rest;
    }
  }

  lemma OrganizationWritten(t: seq<Token>, i: nat) returns (fields: seq<OrganizationEntry>)
    requires AllGenuine(t) && P.ParseOrganization(t, i).Ok?
    ensures ReadsAt(t, i, [Mark("organization")] + Join(OrganizationTokens, fields))
    ensures P.ParseOrganization(t, i).value.1 == i + 1 + |Join(OrganizationTokens, fields)|
  {
    hide AllGenuine, ReadsAt, P.OrganizationFields, Join;
    TakeRead(t, i, "organization");
    fields := OrganizationWrittenFrom(t, i + 1, NO_ORGANIZATION);
    ReadsBoth(t, i, [Mark("organization")], Join(OrganizationTokens, fields));
  }

  // ---------------------------------------------------------------- declarations

  lemma LiteralWritten(t: seq<Token>, i: nat) returns (x: Literal)
    requires AllGenuine(t) && P.ParseScalar(t, i).Ok?
    ensures P.ParseScalar(t, i).value.1 == i + 1 && ReadsAt(t, i, [LiteralToken(x)])
  {
    assert Genuine(t[i]);
    x := match t[i].kind
      case "STRING" => Quoted(t[i].value)
      case "IDENT" => Bare(t[i].value)
      case "NUMBER" => Number(t[i].value)
      case _ => Boolean(t[i].kind == "true");
    OneRead(t, i, LiteralToken(x));
  }

  lemma PolicyWritten(t: seq<Token>, i: nat) returns (name: Label, words: seq<Word>)
    requires AllGenuine(t) && P.ParsePolicy(t, i).Ok?
    ensures ReadsAt(t, i, [Mark("policy"), LabelToken(name), Mark("=")] + ListTokens(words))
    ensures P.ParsePolicy(t, i).value.1 == i + 3 + |ListTokens(words)|
  {
    hide AllGenuine, ReadsAt, P.Head, P.ParseList, ListTokens;
    name := HeadWritten(t, i, "policy", "=");
    words := ListWritten(t, i + 3);
    ReadsBoth(t, i, [Mark("policy"), LabelToken(name), Mark("=")], ListTokens(words));
  }

  lemma MetadataWritten(t: seq<Token>, i: nat) returns (name: Label, literal: Literal)
    requires AllGenuine(t) && P.ParseMetadata(t, i).Ok?
    ensures ReadsAt(t, i, [Mark("metadata"), LabelToken(name), Mark("="), LiteralToken(literal)])
    ensures P.ParseMetadata(t, i).value.1 == i + 4
  {
    hide AllGenuine, ReadsAt, P.Head, P.ParseScalar, LiteralToken;
    name := HeadWritten(t, i, "metadata", "=");
    literal := LiteralWritten(t, i + 3);
    ReadsBoth(t, i, [Mark("metadata"), LabelToken(name), Mark("=")], [LiteralToken(literal)]);
    assert [Mark("metadata"), LabelToken(name), Mark("=")] + [LiteralToken(literal)]
           == [Mark("metadata"), LabelToken(name), Mark("="), LiteralToken(literal)];
  }

  lemma ItemBodyWritten(t: seq<Token>, i: nat, f: P.Items) returns (x: Item)
    requires AllGenuine(t) && P.ParseItem(t, i, f).Ok?
    ensures ReadsAt(t, i, ItemBody(x)) && P.ParseItem(t, i, f).value.1 == i + |ItemBody(x)|
  {
    hide AllGenuine, ReadsAt, Join, Braced, ListTokens, P.ParseOrganization, P.ParseDomain, P.ParseWorkflow,
         P.ParsePolicy, P.ParseMetadata;
    match t[i].kind {
      case "organization" => var fields := OrganizationWritten(t, i); x := OrganizationItem(fields, false);
      case "domain" => var name, domain := DomainWritten(t, i); x := DomainItem(name, domain, false);
      case "workflow" => var name, workflow := WorkflowWritten(t, i); x := WorkflowItem(name, workflow, false);
      case "policy" => var name, words := PolicyWritten(t, i); x := PolicyItem(name, words, false);
      case "metadata" => var name, literal := MetadataWritten(t, i); x := MetadataItem(name, literal, false);
    }
  }

  lemma ItemWithSemi(x: Item, semi: bool) returns (y: Item)
    ensures y.semi == semi && ItemBody(y) == ItemBody(x)
  {
    y := x.(semi := semi);
  }

  lemma ItemWritten(t: seq<Token>, i: nat, f: P.Items) returns (x: Item, g: P.Items)
    requires AllGenuine(t) && P.ParseItems(t, i, f).Ok? && t[i].kind != "}"
    ensures ReadsAt(t, i, ItemTokens(x)) && |ItemTokens(x)| > 0
    ensures P.ParseItems(t, i, f) == P.ParseItems(t, i + |ItemTokens(x)|, g)
  {
    hide AllGenuine, ReadsAt, P.ParseItem, P.Optional, ItemTokens, ItemBody, Semi;
    x := ItemBodyWritten(t, i, f);
    g := P.ParseItem(t, i, f).value.0;
    var semi := SemiWritten(t, i + |ItemBody(x)|);
    ReadsBoth(t, i, ItemBody(x), Semi(semi));
    x := ItemWithSemi(x, semi);
    ItemParts(x);
  }

  lemma {:induction false} ItemsWritten(t: seq<Token>, i: nat, f: P.Items) returns (items: seq<Item>)
    requires AllGenuine(t) && P.ParseItems(t, i, f).Ok?
    ensures ReadsAt(t, i, Join(ItemTokens, items) + [Mark("}")])
    decreases |t| - i
  {
    hide *;
    if t[i].kind == "}" {
      items := [];
      MarkRead(t, i, "}");
      JoinNone(ItemTokens, items, [Mark("}")]);
    } else {
      var x, g := ItemWritten(t, i, f);
      EntryEnds(t, i, ItemTokens(x));
      var rest := ItemsWritten(t, i + |ItemTokens(x)|, g);
      items := [x] + rest;
      assert items[1..] == rest;
      JoinFront(ItemTokens, items, [Mark("}")]);
      ReadsBoth(t, i, ItemTokens(x), Join(ItemTokens, rest) + [Mark("}")]);
    }
  }

  /** Main result: every accepted sequence of lexer tokens starts with a source that the grammar writes. */
  lemma AcceptedIsWritten(t: seq<Token>) returns (c: Source)
    requires AllGenuine(t) && P.Parse(t).Ok?
    ensures ReadsAt(t, 0, SourceTokens(c)) && Complete(c) && P.Parse(t).value == TreeOf(c)
  {
    hide AllGenuine, ReadsAt, P.Head, P.ParseItems, Join, SourceTokens, Complete, TreeOf;
    var name := HeadWritten(t, 0, "module", "version");
    var version := WordWritten(t, 3);
    TakeRead(t, 4, "{");
    var items := ItemsWritten(t, 5, NO_ITEMS);
    c := Source(name, version, items);
    SourceParts(c);
    assert [WordToken(version)] + [Mark("{")] == [WordToken(version), Mark("{")];
    ReadsBoth(t, 3, [WordToken(version)], [Mark("{")]);
    ReadsBoth(t, 3, [WordToken(version), Mark("{")], Join(ItemTokens, items) + [Mark("}")]);
    ReadsBoth(t, 0, [Mark("module"), LabelToken(name), Mark("version")],
              [WordToken(version), Mark("{")] + (Join(ItemTokens, items) + [Mark("}")]));
    SourceRead(t, c);
  }
}
