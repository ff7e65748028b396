/** From a source text to its tree, and from a tree back to tokens that parse to it. */
module HusRoundTrip {
  import opened HusAst
  import opened HusGrammar
  import opened HusReading
  import opened HusWriting
  import opened Outcomes
  import F = HusFrontEnd
  import L = HusLexer
  import P = HusParser
  import S = HusSyntax

  // ---------------------------------------------------------------- source texts

  lemma LexemeGenuine(t: string, decode: L.Decoder, x: Token)
    requires t != "" && L.Scan(t, decode).Lexeme?
    requires x == Tok(L.Scan(t, decode).kind, L.Scan(t, decode).value)
    ensures Genuine(x)
  {
    NotKeywords();
    hide L.NumberLength, L.IdentTail, L.StartsComment, L.LineLength, L.KEYWORDS;
  }

  lemma TokenGenuine(source: string, x: Token, decode: L.Decoder)
    requires L.TokenAt(source, x, decode)
    ensures Genuine(S.StripToken(x))
  {
    hide L.Scan, L.LineOf, L.ColumnOf, Genuine;
    LexemeGenuine(source[x.start..], decode, S.StripToken(x));
  }

  lemma EofGenuine(x: Token)
    requires x.kind == "EOF"
    ensures Genuine(S.StripToken(x))
  {
  }

  lemma {:induction false} TokensGenuine(source: string, i: nat, tokens: seq<Token>, decode: L.Decoder)
    requires i <= |source| && L.Tokenizes(source, i, tokens, decode)
    ensures forall x :: x in tokens ==> Genuine(S.StripToken(x))
    decreases |tokens|
  {
    hide *;
    L.TokenizesUnfold(source, i, tokens, decode);
    if |tokens| == 1 {
      EofGenuine(tokens[0]);
    } else {
      TokensGenuine(source, tokens[0].end, tokens[1..], decode);
      TokenGenuine(source, tokens[0], decode);
      assert tokens == [tokens[0]] + tokens[1..];
    }
  }

  lemma LexedGenuine(source: string, decode: L.Decoder)
    requires L.Lex(source, decode).Ok?
    ensures AllGenuine(S.Strip(L.Lex(source, decode).value))
  {
    var t := L.Lex(source, decode).value;
    F.LexedTokenizes(source, decode);
    hide L.Lex, L.Tokenizes, Genuine;
    TokensGenuine(source, 0, t, decode);
    forall k | 0 <= k < |t| ensures Genuine(S.Strip(t)[k]) {
      assert t[k] in t;
    }
  }

  /** Main result: a lexed source parses if and only if its tokens start with a complete source of the grammar, and
      its tree is, places apart, the one that this source stands for. */
  lemma TextParsesIff(source: string, decode: L.Decoder)
    requires L.Lex(source, decode).Ok?
    ensures var t := L.Lex(source, decode).value;
            && (P.Parse(t).Ok? <==> exists c :: ReadsAt(S.Strip(t), 0, SourceTokens(c)) && Complete(c))
            && forall c :: ReadsAt(S.Strip(t), 0, SourceTokens(c)) && Complete(c) ==>
                 P.Parse(t).Ok? && Plain(P.Parse(t).value) == TreeOf(c)
  {
    hide *;
    var t := L.Lex(source, decode).value;
    LexedGenuine(source, decode);
    S.StripParse(t);
    if P.Parse(t).Ok? { var c := AcceptedIsWritten(S.Strip(t)); }
    forall c | ReadsAt(S.Strip(t), 0, SourceTokens(c)) && Complete(c)
      ensures P.Parse(t).Ok? && Plain(P.Parse(t).value) == TreeOf(c)
    {
      SourceRead(S.Strip(t), c);
    }
  }

  // ---------------------------------------------------------------- writing a tree

  /** The values of metadata that the parser builds. */
  predicate ValueOk(v: Value) {
    match v.kind
    case "boolean" => v.value.Flag?
    case "string" => v.value.Text?
    case "identifier" => v.value.Text?
    case "decimal" => v.value.Text? && '.' in v.value.text
    case "integer" => v.value.Text? && '.' !in v.value.text
    case _ => false
  }

  function InQuotes(text: string): Word { Word(true, text) }

  function Identifier(text: string): Label { Label("IDENT", text) }

  function WriteValue(v: Value): Literal
    requires ValueOk(v)
  {
    match v.value
    case Flag(flag) => Boolean(flag)
    case Text(text) => if v.kind == "string" then Quoted(text) else if v.kind == "identifier" then Bare(text)
                       else Number(text)
  }

  function WriteDomain(d: Domain): Item {
    DomainItem(Identifier(d.code),
               [Engine(InQuotes(d.engine), true), Capabilities(MapSeq(InQuotes, d.capabilities), true)]
               + (if d.name.Some? then [DomainName(InQuotes(d.name.value), true)] else [])
               + [DomainEnabled(d.enabled, true)], true)
  }

  function WriteStep(s: StepDecl): WorkflowEntry {
    Step(Identifier(s.code), [Action(InQuotes(s.action), true)] + if s.approval then [Approval(true)] else [])
  }

  function WriteWorkflow(w: Workflow): Item {
    WorkflowItem(Identifier(w.code),
                 [Trigger(InQuotes(w.trigger), true)]
                 + (if w.name.Some? then [WorkflowName(InQuotes(w.name.value), true)] else [])
                 + [WorkflowEnabled(w.enabled, true)] + MapSeq(WriteStep, w.steps), true)
  }

  function WritePolicy(p: Policy): Item { PolicyItem(Identifier(p.name), MapSeq(InQuotes, p.values), true) }

  function WriteMetadata(x: Metadata): Item {
    MetadataItem(Identifier(x.key), if ValueOk(x.value) then WriteValue(x.value) else Boolean(false), true)
  }

  function WriteOrganization(o: Organization): Item {
    OrganizationItem([OrganizationCode(InQuotes(o.code)), OrganizationName(InQuotes(o.name))], true)
  }

  /** A tree, declaration by declaration, each with its fields in a fixed order. */
  function Write(m: Module): Source {
    Source(Identifier(m.name), InQuotes(m.version),
           [WriteOrganization(m.organization)] + MapSeq(WriteDomain, m.domains) + MapSeq(WriteWorkflow, m.workflows)
           + MapSeq(WritePolicy, m.policies) + MapSeq(WriteMetadata, m.metadata))
  }

  // ---------------------------------------------------------------- picking values from written parts

  lemma {:induction false} AllOfConcat<E, V>(value: E -> Option<V>, a: seq<E>, b: seq<E>)
    ensures AllOf(value, a + b) == AllOf(value, a) + AllOf(value, b)
    decreases |b|
  {
    if b == [] {
      assert a + b == a;
    } else {
      var n := |b| - 1;
      AllOfConcat(value, a, b[..n]);
      assert (a + b)[..|a + b| - 1] == a + b[..n];
    }
  }

  lemma {:induction false} AllOfMap<T, E, V>(write: T -> E, value: E -> Option<V>, tree: T -> V, s: seq<T>)
    requires forall x :: x in s ==> value(write(x)) == Some(tree(x))
    ensures AllOf(value, MapSeq(write, s)) == MapSeq(tree, s)
  {
    if s != [] {
      var n := |s| - 1;
      assert s == s[..n] + [s[n]];
      AllOfMap(write, value, tree, s[..n]);
      assert MapSeq(write, s)[..n] == MapSeq(write, s[..n]);
    }
  }

  lemma {:induction false} AllOfNone<E, V>(value: E -> Option<V>, s: seq<E>)
    requires forall x :: x in s ==> value(x).None?
    ensures AllOf(value, s) == [] && LastOf(value, s).None?
  {
    if s != [] {
      var n := |s| - 1;
      assert s[n] in s;
      AllOfNone(value, s[..n]);
    }
  }

  lemma {:induction false} LastOfConcat<E, V>(value: E -> Option<V>, a: seq<E>, b: seq<E>)
    ensures LastOf(value, a + b) == if LastOf(value, b).Some? then LastOf(value, b) else LastOf(value, a)
    decreases |b|
  {
    if b == [] {
      assert a + b == a;
    } else {
      var n := |b| - 1;
      LastOfConcat(value, a, b[..n]);
      assert (a + b)[..|a + b| - 1] == a + b[..n];
    }
  }

  lemma OneOf<E, V>(value: E -> Option<V>, x: E)
    ensures LastOf(value, [x]) == value(x)
    ensures AllOf(value, [x]) == if value(x).Some? then [value(x).value] else []
    ensures LastOf(value, []) == None && AllOf(value, []) == []
  {
    assert [x][..0] == [];
  }

  lemma NoneOfMap<T, E, V>(write: T -> E, value: E -> Option<V>, s: seq<T>)
    requires forall x :: x in s ==> value(write(x)).None?
    ensures AllOf(value, MapSeq(write, s)) == [] && LastOf(value, MapSeq(write, s)).None?
  {
    var written := MapSeq(write, s);
    forall e | e in written ensures value(e).None? {
      var i :| 0 <= i < |s| && written[i] == e;
      assert s[i] in s;
    }
    AllOfNone(value, written);
  }

  lemma MapMembers<T, E>(write: T -> E, ok: E -> bool, s: seq<T>)
    requires forall x :: x in s ==> ok(write(x))
    ensures forall e :: e in MapSeq(write, s) ==> ok(e)
  {
    var written := MapSeq(write, s);
    forall e | e in written ensures ok(e) {
      var i :| 0 <= i < |s| && written[i] == e;
      assert s[i] in s;
    }
  }

  /** The last value among a part, an optional one and a third. */
  lemma LastOfThree<E, V>(value: E -> Option<V>, first: seq<E>, middle: Option<E>, last: E)
    ensures LastOf(value, first + (if middle.Some? then [middle.value] else []) + [last])
            == if value(last).Some? then value(last)
               else if middle.Some? && value(middle.value).Some? then value(middle.value)
               else LastOf(value, first)
  {
    var mid := if middle.Some? then [middle.value] else [];
    LastOfConcat(value, first + mid, [last]);
    LastOfConcat(value, first, mid);
    OneOf(value, last);
    if middle.Some? { OneOf(value, middle.value); }
  }

  lemma LastOfTwo<E, V>(value: E -> Option<V>, a: E, b: E)
    ensures LastOf(value, [a, b]) == if value(b).Some? then value(b) else value(a)
  {
    assert [a] + [b] == [a, b];
    LastOfConcat(value, [a], [b]);
    OneOf(value, a);
    OneOf(value, b);
  }

  lemma TextsBack(texts: seq<string>)
    ensures MapSeq(TextOf, MapSeq(InQuotes, texts)) == texts
  {
  }

  // ---------------------------------------------------------------- every declaration comes back

  lemma DomainBack(d: Domain)
    ensures DomainDecl(WriteDomain(d)) == Some(PlainDomain(d)) && ItemComplete(WriteDomain(d))
    ensures WriteDomain(d).semi
  {
    hide LastOf, MapSeq, OrganizationTree, WorkflowComplete;
    var engine, list := Engine(InQuotes(d.engine), true), Capabilities(MapSeq(InQuotes, d.capabilities), true);
    var name := if d.name.Some? then Some(DomainName(InQuotes(d.name.value), true)) else None;
    var enabled := DomainEnabled(d.enabled, true);
    TextsBack(d.capabilities);
    LastOfThree(EngineField, [engine, list], name, enabled);
    LastOfThree(CapabilitiesField, [engine, list], name, enabled);
    LastOfThree(DomainNameField, [engine, list], name, enabled);
    LastOfThree(DomainEnabledField, [engine, list], name, enabled);
    LastOfTwo(EngineField, engine, list);
    LastOfTwo(CapabilitiesField, engine, list);
    LastOfTwo(DomainNameField, engine, list);
  }

  lemma StepBack(s: StepDecl)
    ensures WriteStep(s).Step? && StepTree(WriteStep(s).name, WriteStep(s).entries) == PlainStep(s)
    ensures StepField(WriteStep(s)) == Some(PlainStep(s))
    ensures s.action != "" ==> StepComplete(WriteStep(s).name, WriteStep(s).entries)
  {
    hide LastOf;
    var action := Action(InQuotes(s.action), true);
    OneOf(ActionField, action);
    OneOf(ApprovalField, action);
    assert [action] + [] == [action];
    if s.approval {
      assert [action] + [Approval(true)] == [action, Approval(true)];
      LastOfTwo(ActionField, action, Approval(true));
      LastOfTwo(ApprovalField, action, Approval(true));
    }
  }

  /** The fields of a written workflow before its steps. */
  function WorkflowHead(w: Workflow): seq<WorkflowEntry> {
    [Trigger(InQuotes(w.trigger), true)]
    + (if w.name.Some? then [WorkflowName(InQuotes(w.name.value), true)] else [])
    + [WorkflowEnabled(w.enabled, true)]
  }

  lemma WorkflowHeadBack(w: Workflow)
    ensures var head := WorkflowHead(w);
            && LastOf(TriggerField, head) == Some(w.trigger) && LastOf(WorkflowNameField, head) == w.name
            && LastOf(WorkflowEnabledField, head) == Some(w.enabled) && AllOf(StepField, head) == []
            && forall e :: e in head ==> !e.Step?
  {
    hide LastOf, AllOf;
    var trigger, enabled := Trigger(InQuotes(w.trigger), true), WorkflowEnabled(w.enabled, true);
    var name := if w.name.Some? then Some(WorkflowName(InQuotes(w.name.value), true)) else None;
    LastOfThree(TriggerField, [trigger], name, enabled);
    LastOfThree(WorkflowNameField, [trigger], name, enabled);
    LastOfThree(WorkflowEnabledField, [trigger], name, enabled);
    OneOf(TriggerField, trigger);
    OneOf(WorkflowNameField, trigger);
    AllOfNone(StepField, WorkflowHead(w));
  }

  lemma StepsBack(steps: seq<StepDecl>)
    ensures var written := MapSeq(WriteStep, steps);
            && AllOf(StepField, written) == MapSeq(PlainStep, steps)
            && LastOf(TriggerField, written).None? && LastOf(WorkflowNameField, written).None?
            && LastOf(WorkflowEnabledField, written).None?
  {
    forall s: StepDecl ensures StepField(WriteStep(s)) == Some(PlainStep(s)) { StepBack(s); }
    hide AllOf, LastOf, MapSeq;
    AllOfMap(WriteStep, StepField, PlainStep, steps);
    NoneOfMap(WriteStep, TriggerField, steps);
    NoneOfMap(WriteStep, WorkflowNameField, steps);
    NoneOfMap(WriteStep, WorkflowEnabledField, steps);
  }

  predicate EntryComplete(e: WorkflowEntry) { e.Step? ==> StepComplete(e.name, e.entries) }

  lemma StepsAreComplete(steps: seq<StepDecl>)
    requires forall s :: s in steps ==> s.action != ""
    ensures forall e :: e in MapSeq(WriteStep, steps) && e.Step? ==> StepComplete(e.name, e.entries)
  {
    forall s | s in steps ensures EntryComplete(WriteStep(s)) { StepBack(s); }
    hide StepComplete, MapSeq, WriteStep;
    MapMembers(WriteStep, EntryComplete, steps);
    assert forall e :: e in MapSeq(WriteStep, steps) ==> EntryComplete(e);
  }

  lemma WorkflowBack(w: Workflow)
    ensures WorkflowDecl(WriteWorkflow(w)) == Some(PlainWorkflow(w)) && WriteWorkflow(w).semi
    ensures WorkflowBuilt(w) ==> ItemComplete(WriteWorkflow(w))
  {
    hide LastOf, AllOf, MapSeq, StepComplete, OrganizationTree, PlainStep, WriteStep, WorkflowHead;
    var head, steps := WorkflowHead(w), MapSeq(WriteStep, w.steps);
    WrittenWorkflow(w);
    WorkflowHeadBack(w);
    StepsBack(w.steps);
    if WorkflowBuilt(w) { StepsAreComplete(w.steps); }
    LastOfConcat(TriggerField, head, steps);
    LastOfConcat(WorkflowNameField, head, steps);
    LastOfConcat(WorkflowEnabledField, head, steps);
    AllOfConcat(StepField, head, steps);
    assert [] + MapSeq(PlainStep, w.steps) == MapSeq(PlainStep, w.steps);
    assert w.steps != [] ==> MapSeq(PlainStep, w.steps) != [] by { assert |MapSeq(PlainStep, w.steps)| == |w.steps|; }
  }

  lemma WrittenWorkflow(w: Workflow)
    ensures WriteWorkflow(w) == WorkflowItem(Identifier(w.code), WorkflowHead(w) + MapSeq(WriteStep, w.steps), true)
  {
    hide MapSeq, WriteStep;
  }

  lemma PolicyBack(p: Policy)
    ensures PolicyDecl(WritePolicy(p)) == Some(PlainPolicy(p)) && ItemComplete(WritePolicy(p)) && WritePolicy(p).semi
  {
    TextsBack(p.values);
    hide MapSeq;
  }

  lemma MetadataBack(x: Metadata)
    ensures ValueOk(x.value) ==> MetadataDecl(WriteMetadata(x)) == Some(PlainMetadata(x))
    ensures ItemComplete(WriteMetadata(x)) && WriteMetadata(x).semi
  {
  }

  lemma OrganizationBack(o: Organization)
    ensures OrganizationDecl(WriteOrganization(o)) == Some(o.(span := NOWHERE)) && WriteOrganization(o).semi
    ensures o.code != "" && o.name != "" ==> ItemComplete(WriteOrganization(o))
  {
    hide LastOf;
    var code, name := OrganizationCode(InQuotes(o.code)), OrganizationName(InQuotes(o.name));
    LastOfTwo(CodeField, code, name);
    LastOfTwo(NameField, code, name);
  }

  // ---------------------------------------------------------------- the whole tree comes back

  lemma AllOfFive<E, V>(value: E -> Option<V>, a: seq<E>, b: seq<E>, c: seq<E>, d: seq<E>, e: seq<E>)
    ensures AllOf(value, a + b + c + d + e)
            == AllOf(value, a) + AllOf(value, b) + AllOf(value, c) + AllOf(value, d) + AllOf(value, e)
    ensures LastOf(value, b).None? && LastOf(value, c).None? && LastOf(value, d).None? && LastOf(value, e).None? ==>
              LastOf(value, a + b + c + d + e) == LastOf(value, a)
  {
    hide *;
    AllOfConcat(value, a + b + c + d, e);
    AllOfConcat(value, a + b + c, d);
    AllOfConcat(value, a + b, c);
    AllOfConcat(value, a, b);
    LastOfConcat(value, a + b + c + d, e);
    LastOfConcat(value, a + b + c, d);
    LastOfConcat(value, a + b, c);
    LastOfConcat(value, a, b);
  }

  /** Each kind of declaration is written as its own kind of item. */
  lemma OwnKinds(m: Module)
    ensures forall d :: OrganizationDecl(WriteDomain(d)).None? && WorkflowDecl(WriteDomain(d)).None?
                        && PolicyDecl(WriteDomain(d)).None? && MetadataDecl(WriteDomain(d)).None?
    ensures forall w :: OrganizationDecl(WriteWorkflow(w)).None? && DomainDecl(WriteWorkflow(w)).None?
                        && PolicyDecl(WriteWorkflow(w)).None? && MetadataDecl(WriteWorkflow(w)).None?
    ensures forall p :: OrganizationDecl(WritePolicy(p)).None? && DomainDecl(WritePolicy(p)).None?
                        && WorkflowDecl(WritePolicy(p)).None? && MetadataDecl(WritePolicy(p)).None?
    ensures forall x :: OrganizationDecl(WriteMetadata(x)).None? && DomainDecl(WriteMetadata(x)).None?
                        && WorkflowDecl(WriteMetadata(x)).None? && PolicyDecl(WriteMetadata(x)).None?
    ensures forall o :: DomainDecl(WriteOrganization(o)).None? && WorkflowDecl(WriteOrganization(o)).None?
                        && PolicyDecl(WriteOrganization(o)).None? && MetadataDecl(WriteOrganization(o)).None?
  {
    hide MapSeq, WriteStep, WriteValue;
  }

  lemma DomainsBack(m: Module)
    ensures AllOf(DomainDecl, Write(m).items) == MapSeq(PlainDomain, m.domains)
    ensures AllOf(WorkflowDecl, Write(m).items) == MapSeq(PlainWorkflow, m.workflows)
  {
    forall d: Domain ensures DomainDecl(WriteDomain(d)) == Some(PlainDomain(d)) { DomainBack(d); }
    forall w: Workflow ensures WorkflowDecl(WriteWorkflow(w)) == Some(PlainWorkflow(w)) { WorkflowBack(w); }
    WriteMeans(m);
    hide *;
    var (a, b, c, d, e) := WriteParts(m);
    OwnKinds(m);
    OneOf(DomainDecl, WriteOrganization(m.organization));
    AllOfMap(WriteDomain, DomainDecl, PlainDomain, m.domains);
    NoneOfMap(WriteWorkflow, DomainDecl, m.workflows);
    NoneOfMap(WritePolicy, DomainDecl, m.policies);
    NoneOfMap(WriteMetadata, DomainDecl, m.metadata);
    AllOfFive(DomainDecl, a, b, c, d, e);
    OneOf(WorkflowDecl, WriteOrganization(m.organization));
    NoneOfMap(WriteDomain, WorkflowDecl, m.domains);
    AllOfMap(WriteWorkflow, WorkflowDecl, PlainWorkflow, m.workflows);
    NoneOfMap(WritePolicy, WorkflowDecl, m.policies);
    NoneOfMap(WriteMetadata, WorkflowDecl, m.metadata);
    AllOfFive(WorkflowDecl, a, b, c, d, e);
  }

  /** The items of a written tree, kind by kind. */
  function WriteParts(m: Module): (seq<Item>, seq<Item>, seq<Item>, seq<Item>, seq<Item>) {
    ([WriteOrganization(m.organization)], MapSeq(WriteDomain, m.domains), MapSeq(WriteWorkflow, m.workflows),
     MapSeq(WritePolicy, m.policies), MapSeq(WriteMetadata, m.metadata))
  }

  lemma WriteMeans(m: Module)
    ensures var (a, b, c, d, e) := WriteParts(m);
            && Write(m) == Source(Identifier(m.name), InQuotes(m.version), a + b + c + d + e)
            && a == [WriteOrganization(m.organization)] && b == MapSeq(WriteDomain, m.domains)
            && c == MapSeq(WriteWorkflow, m.workflows) && d == MapSeq(WritePolicy, m.policies)
            && e == MapSeq(WriteMetadata, m.metadata)
  {
  }

  lemma PoliciesBack(m: Module)
    requires forall x :: x in m.metadata ==> ValueOk(x.value)
    ensures AllOf(PolicyDecl, Write(m).items) == MapSeq(PlainPolicy, m.policies)
    ensures AllOf(MetadataDecl, Write(m).items) == MapSeq(PlainMetadata, m.metadata)
  {
    forall p: Policy ensures PolicyDecl(WritePolicy(p)) == Some(PlainPolicy(p)) { PolicyBack(p); }
    forall x | x in m.metadata ensures MetadataDecl(WriteMetadata(x)) == Some(PlainMetadata(x)) { MetadataBack(x); }
    WriteMeans(m);
    hide *;
    var (a, b, c, d, e) := WriteParts(m);
    OwnKinds(m);
    OneOf(PolicyDecl, WriteOrganization(m.organization));
    NoneOfMap(WriteDomain, PolicyDecl, m.domains);
    NoneOfMap(WriteWorkflow, PolicyDecl, m.workflows);
    AllOfMap(WritePolicy, PolicyDecl, PlainPolicy, m.policies);
    NoneOfMap(WriteMetadata, PolicyDecl, m.metadata);
    AllOfFive(PolicyDecl, a, b, c, d, e);
    OneOf(MetadataDecl, WriteOrganization(m.organization));
    NoneOfMap(WriteDomain, MetadataDecl, m.domains);
    NoneOfMap(WriteWorkflow, MetadataDecl, m.workflows);
    NoneOfMap(WritePolicy, MetadataDecl, m.policies);
    AllOfMap(WriteMetadata, MetadataDecl, PlainMetadata, m.metadata);
    AllOfFive(MetadataDecl, a, b, c, d, e);
  }

  lemma OrganizationIsLast(m: Module)
    ensures LastOf(OrganizationDecl, Write(m).items) == Some(m.organization.(span := NOWHERE))
  {
    WriteMeans(m);
    hide *;
    var (a, b, c, d, e) := WriteParts(m);
    OwnKinds(m);
    OrganizationBack(m.organization);
    OneOf(OrganizationDecl, WriteOrganization(m.organization));
    NoneOfMap(WriteDomain, OrganizationDecl, m.domains);
    NoneOfMap(WriteWorkflow, OrganizationDecl, m.workflows);
    NoneOfMap(WritePolicy, OrganizationDecl, m.policies);
    NoneOfMap(WriteMetadata, OrganizationDecl, m.metadata);
    AllOfFive(OrganizationDecl, a, b, c, d, e);
  }

  predicate Closed(x: Item) { ItemComplete(x) && x.semi }

  lemma WrittenClosed(m: Module)
    requires ParserBuilt(m)
    ensures forall x :: x in Write(m).items ==> Closed(x)
  {
    forall d: Domain ensures Closed(WriteDomain(d)) { DomainBack(d); }
    forall w: Workflow | w in m.workflows ensures Closed(WriteWorkflow(w)) { WorkflowBack(w); }
    forall p: Policy ensures Closed(WritePolicy(p)) { PolicyBack(p); }
    forall x: Metadata ensures Closed(WriteMetadata(x)) { MetadataBack(x); }
    OrganizationBack(m.organization);
    assert Closed(WriteOrganization(m.organization));
    WriteMeans(m);
    hide *;
    MapMembers(WriteDomain, Closed, m.domains);
    MapMembers(WriteWorkflow, Closed, m.workflows);
    MapMembers(WritePolicy, Closed, m.policies);
    MapMembers(WriteMetadata, Closed, m.metadata);
  }

  lemma ClosedIsComplete(items: seq<Item>)
    requires forall x :: x in items ==> Closed(x)
    ensures ItemsComplete(items)
  {
    hide ItemComplete;
    forall i | 0 <= i < |items| - 1 ensures Separated(items[i], items[i + 1]) {
      assert items[i] in items;
    }
  }

  /** Writing a tree and reading the grammar gives the tree again, and what is written is complete. */
  lemma WrittenTree(m: Module)
    requires ParserBuilt(m) && forall x :: x in m.metadata ==> ValueOk(x.value)
    ensures TreeOf(Write(m)) == Plain(m) && Complete(Write(m))
  {
    DomainsBack(m);
    PoliciesBack(m);
    OrganizationIsLast(m);
    WrittenClosed(m);
    hide AllOf, LastOf, MapSeq, Closed, ItemsComplete, ParserBuilt;
    ClosedIsComplete(Write(m).items);
    WriteMeans(m);
    hide WriteParts, WriteOrganization, WriteDomain, WriteWorkflow, WritePolicy, WriteMetadata;
  }

  /** Main result: written as tokens, a tree parses to itself: every declaration of its kind, with all of its fields,
      and lists and steps in order. */
  lemma RoundTrip(m: Module)
    requires ParserBuilt(m) && forall x :: x in m.metadata ==> ValueOk(x.value)
    ensures P.Parse(SourceTokens(Write(m))) == Ok(Plain(m))
  {
    hide *;
    WrittenTree(m);
    WholeRead(SourceTokens(Write(m)));
    SourceRead(SourceTokens(Write(m)), Write(m));
  }

  lemma WholeRead(t: seq<Token>)
    ensures ReadsAt(t, 0, t)
  {
  }

  // ---------------------------------------------------------------- trees of the parser

  lemma {:induction false} AllOfMembers<E(!new), V(!new)>(value: E -> Option<V>, ok: V -> bool, parts: seq<E>)
    requires forall e :: value(e).Some? ==> ok(value(e).value)
    ensures forall x :: x in AllOf(value, parts) ==> ok(x)
  {
    if parts != [] { AllOfMembers(value, ok, parts[..|parts| - 1]); }
  }

  predicate MetadataOk(x: Metadata) { ValueOk(x.value) }

  lemma TreeValuesOk(c: Source)
    ensures forall x :: x in TreeOf(c).metadata ==> ValueOk(x.value)
  {
    forall x: Item | MetadataDecl(x).Some? ensures MetadataOk(MetadataDecl(x).value) {
    }
    AllOfMembers(MetadataDecl, MetadataOk, c.items);
    hide AllOf, LastOf;
    assert forall x :: x in TreeOf(c).metadata ==> MetadataOk(x);
  }

  lemma PlainValuesOk(m: Module)
    requires forall x :: x in Plain(m).metadata ==> ValueOk(x.value)
    ensures forall x :: x in m.metadata ==> ValueOk(x.value)
  {
    forall x | x in m.metadata ensures ValueOk(x.value) {
      var i :| 0 <= i < |m.metadata| && m.metadata[i] == x;
      assert Plain(m).metadata[i] == PlainMetadata(x) && PlainMetadata(x) in Plain(m).metadata;
      assert ValueOk(PlainMetadata(x).value);
    }
  }

  /** Main result: every tree that comes out of a text parses to itself again once it is written as tokens. */
  lemma ParsedRoundTrip(source: string, decode: L.Decoder)
    requires L.Lex(source, decode).Ok? && P.Parse(L.Lex(source, decode).value).Ok?
    ensures var m := P.Parse(L.Lex(source, decode).value).value;
            P.Parse(SourceTokens(Write(m))) == Ok(Plain(m))
  {
    hide *;
    var t := L.Lex(source, decode).value;
    var m := P.Parse(t).value;
    F.ParsedIsBuilt(source, decode);
    LexedGenuine(source, decode);
    S.StripParse(t);
    var c := AcceptedIsWritten(S.Strip(t));
    TreeValuesOk(c);
    PlainValuesOk(m);
    RoundTrip(m);
  }
}
