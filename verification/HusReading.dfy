/** The parser reads what the grammar writes: it accepts exactly the complete sources, and builds their trees. */
module HusReading {
  import opened HusAst
  import opened HusGrammar
  import opened Outcomes
  import P = HusParser

  /** The piece stands at the cursor. */
  predicate ReadsAt(t: seq<Token>, i: nat, piece: seq<Token>) {
    i + |piece| <= |t| && forall k :: 0 <= k < |piece| ==> t[i + k] == piece[k]
  }

  lemma ReadsBoth(t: seq<Token>, i: nat, a: seq<Token>, b: seq<Token>)
    ensures ReadsAt(t, i, a + b) <==> ReadsAt(t, i, a) && ReadsAt(t, i + |a|, b)
  {
    if ReadsAt(t, i, a + b) {
      forall k | 0 <= k < |a| ensures t[i + k] == a[k] { assert (a + b)[k] == a[k]; }
      forall k | 0 <= k < |b| ensures t[i + |a| + k] == b[k] { assert (a + b)[|a| + k] == b[k]; }
    }
    if ReadsAt(t, i, a) && ReadsAt(t, i + |a|, b) {
      forall k | 0 <= k < |a + b| ensures t[i + k] == (a + b)[k] {
        if k >= |a| { assert t[i + |a| + (k - |a|)] == b[k - |a|]; }
      }
    }
  }

  lemma OneRead(t: seq<Token>, i: nat, a: Token)
    ensures ReadsAt(t, i, [a]) <==> i < |t| && t[i] == a
  {
    assert [a][0] == a;
  }

  lemma TwoRead(t: seq<Token>, i: nat, a: Token, b: Token)
    ensures ReadsAt(t, i, [a, b]) <==> i + 1 < |t| && t[i] == a && t[i + 1] == b
  {
    assert [a, b][0] == a && [a, b][1] == b;
  }

  lemma ThreeRead(t: seq<Token>, i: nat, a: Token, b: Token, c: Token)
    ensures ReadsAt(t, i, [a, b, c]) <==> i + 2 < |t| && t[i] == a && t[i + 1] == b && t[i + 2] == c
  {
    assert [a, b, c][0] == a && [a, b, c][1] == b && [a, b, c][2] == c;
  }

  /** A part, an optional semicolon, and something that is none. */
  lemma SemiRead(t: seq<Token>, i: nat, semi: bool)
    requires ReadsAt(t, i, Semi(semi)) && i + |Semi(semi)| < |t| && t[i + |Semi(semi)|].kind != ";"
    ensures P.Optional(t, i, ";") == Ok(i + |Semi(semi)|)
  {
    if semi { OneRead(t, i, Mark(";")); }
  }

  // ---------------------------------------------------------------- folds

  /** Taking in the parts one after the other. */
  function Fold<F, E>(put: (F, E) -> F, f: F, parts: seq<E>): F {
    if parts == [] then f else put(Fold(put, f, parts[..|parts| - 1]), parts[|parts| - 1])
  }

  lemma FoldNone<F, E>(put: (F, E) -> F, f: F, parts: seq<E>)
    requires parts == []
    ensures Fold(put, f, parts) == f
  {
  }

  lemma {:induction false} FoldFront<F, E>(put: (F, E) -> F, f: F, parts: seq<E>)
    requires parts != []
    ensures Fold(put, f, parts) == Fold(put, put(f, parts[0]), parts[1..])
  {
    var n := |parts| - 1;
    if n > 0 {
      FoldFront(put, f, parts[..n]);
      assert parts[..n][1..] == parts[1..][..n - 1];
    } else {
      assert parts[..0] == [] && parts[1..] == [];
    }
  }

  lemma JoinFront<E>(tokens: E -> seq<Token>, parts: seq<E>, tail: seq<Token>)
    requires parts != []
    ensures Join(tokens, parts) + tail == tokens(parts[0]) + (Join(tokens, parts[1..]) + tail)
    ensures |Join(tokens, parts)| == |tokens(parts[0])| + |Join(tokens, parts[1..])|
  {
  }

  lemma JoinNone<E>(tokens: E -> seq<Token>, parts: seq<E>, tail: seq<Token>)
    requires parts == []
    ensures Join(tokens, parts) + tail == tail && Join(tokens, parts) == []
  {
  }

  /** What follows a part: the first token of the next one, or of the tail. */
  lemma NextRead<E>(t: seq<Token>, i: nat, tokens: E -> seq<Token>, parts: seq<E>, tail: seq<Token>)
    requires ReadsAt(t, i, Join(tokens, parts) + tail) && tail != [] && (parts != [] ==> tokens(parts[0]) != [])
    ensures i < |t| && t[i] == if parts == [] then tail[0] else tokens(parts[0])[0]
  {
    var piece := Join(tokens, parts) + tail;
    assert piece == [piece[0]] + piece[1..];
    ReadsBoth(t, i, [piece[0]], piece[1..]);
    OneRead(t, i, piece[0]);
    hide ReadsAt;
    if parts == [] { JoinNone(tokens, parts, tail); } else { JoinFront(tokens, parts, tail); }
  }

  // ---------------------------------------------------------------- words and lists

  lemma {:induction false} WordsRead(t: seq<Token>, i: nat, words: seq<Word>, before: seq<string>)
    requires words != [] && ReadsAt(t, i, WordTokens(words) + [Mark("]")])
    ensures P.ListItems(t, i, before) == Ok((before + MapSeq(TextOf, words), i + |WordTokens(words)|))
    decreases |words|
  {
    hide *;
    var rest, next := words[1..], before + [words[0].text];
    WordsFront(words);
    if rest == [] {
      TwoRead(t, i, WordToken(words[0]), Mark("]"));
      NoTexts(rest);
      assert [words[0].text] + MapSeq(TextOf, rest) == [words[0].text];
      LastWord(t, i, words[0], before);
    } else {
      var opening, closing := [WordToken(words[0]), Mark(",")], WordTokens(rest) + [Mark("]")];
      assert opening + WordTokens(rest) + [Mark("]")] == opening + closing;
      ReadsBoth(t, i, opening, closing);
      TwoRead(t, i, WordToken(words[0]), Mark(","));
      WordsRead(t, i + 2, rest, next);
      MoreWords(t, i, words[0], before);
      assert next + MapSeq(TextOf, rest) == before + ([words[0].text] + MapSeq(TextOf, rest));
    }
  }

  lemma WordsFront(words: seq<Word>)
    requires words != []
    ensures MapSeq(TextOf, words) == [words[0].text] + MapSeq(TextOf, words[1..])
    ensures words[1..] == [] ==> WordTokens(words) == [WordToken(words[0])]
                                 && WordTokens(words) + [Mark("]")] == [WordToken(words[0]), Mark("]")]
    ensures words[1..] != [] ==> WordTokens(words) == [WordToken(words[0]), Mark(",")] + WordTokens(words[1..])
  {
  }

  lemma LastWord(t: seq<Token>, i: nat, word: Word, before: seq<string>)
    requires i + 1 < |t| && t[i] == WordToken(word) && t[i + 1] == Mark("]")
    ensures P.ListItems(t, i, before) == Ok((before + [word.text], i + 1))
  {
  }

  lemma MoreWords(t: seq<Token>, i: nat, word: Word, before: seq<string>)
    requires i + 1 < |t| && t[i] == WordToken(word) && t[i + 1] == Mark(",")
    ensures P.ListItems(t, i, before) == P.ListItems(t, i + 2, before + [word.text])
  {
  }

  lemma ListRead(t: seq<Token>, i: nat, words: seq<Word>)
    requires ReadsAt(t, i, ListTokens(words))
    ensures P.ParseList(t, i) == Ok((MapSeq(TextOf, words), i + |ListTokens(words)|))
  {
    hide *;
    var inside := WordTokens(words);
    ListParts(words);
    ReadsBoth(t, i, [Mark("[")], inside + [Mark("]")]);
    ReadsBoth(t, i + 1, inside, [Mark("]")]);
    OneRead(t, i, Mark("["));
    OneRead(t, i + 1 + |inside|, Mark("]"));
    if words == [] {
      NoTexts(words);
      EmptyList(t, i);
    } else {
      FirstWord(t, i + 1, words);
      WordsRead(t, i + 1, words, []);
      assert [] + MapSeq(TextOf, words) == MapSeq(TextOf, words);
      FullList(t, i, words[0], MapSeq(TextOf, words), i + 1 + |inside|);
    }
  }

  lemma ListParts(words: seq<Word>)
    ensures ListTokens(words) == [Mark("[")] + (WordTokens(words) + [Mark("]")])
  {
    hide WordTokens;
  }

  lemma EmptyList(t: seq<Token>, i: nat)
    requires i + 1 < |t| && t[i] == Mark("[") && t[i + 1] == Mark("]")
    ensures P.ParseList(t, i) == Ok(([], i + 2))
  {
  }

  lemma FullList(t: seq<Token>, i: nat, first: Word, texts: seq<string>, k: nat)
    requires i + 1 < |t| && t[i] == Mark("[") && t[i + 1] == WordToken(first)
    requires P.ListItems(t, i + 1, []) == Ok((texts, k)) && k < |t| && t[k] == Mark("]")
    ensures P.ParseList(t, i) == Ok((texts, k + 1))
  {
    hide P.ListItems;
  }

  lemma NoTexts(words: seq<Word>)
    requires words == []
    ensures MapSeq(TextOf, words) == [] && WordTokens(words) == []
  {
  }

  lemma FirstWord(t: seq<Token>, i: nat, words: seq<Word>)
    requires words != [] && ReadsAt(t, i, WordTokens(words))
    ensures i < |t| && t[i] == WordToken(words[0])
  {
    var inside := WordTokens(words);
    assert inside == [WordToken(words[0])] + inside[1..];
    ReadsBoth(t, i, [WordToken(words[0])], inside[1..]);
    OneRead(t, i, WordToken(words[0]));
    hide ReadsAt;
  }

  // ---------------------------------------------------------------- domains

  function PutDomain(f: P.DomainFields, e: DomainEntry): P.DomainFields {
    match e
    case Engine(word, _) => f.(engine := Some(word.text))
    case Capabilities(words, _) => f.(capabilities := MapSeq(TextOf, words))
    case DomainName(word, _) => f.(name := Some(word.text))
    case DomainEnabled(on, _) => f.(enabled := on)
  }

  const NO_DOMAIN := P.DomainFields(None, [], None, true)

  lemma {:induction false} DomainFolds(entries: seq<DomainEntry>)
    ensures Fold(PutDomain, NO_DOMAIN, entries)
            == P.DomainFields(LastOf(EngineField, entries), Or(LastOf(CapabilitiesField, entries), []),
                              LastOf(DomainNameField, entries), Or(LastOf(DomainEnabledField, entries), true))
  {
    if entries != [] { DomainFolds(entries[..|entries| - 1]); }
  }

  lemma DomainEntryRead(t: seq<Token>, i: nat, e: DomainEntry, f: P.DomainFields)
    requires ReadsAt(t, i, DomainTokens(e))
    requires i + |DomainTokens(e)| < |t| && t[i + |DomainTokens(e)|].kind != ";"
    ensures P.ParseDomainFields(t, i, f) == P.ParseDomainFields(t, i + |DomainTokens(e)|, PutDomain(f, e))
  {
    hide DomainTokens, DomainKey, DomainValue, PutDomain, ReadsAt, P.DomainField, P.Optional, Semi;
    var key, body := DomainKey(e), DomainValue(e);
    DomainParts(e);
    FieldRead(t, i, key, body, e.semi);
    DomainValueRead(t, i + 2, e, f);
  }

  lemma DomainParts(e: DomainEntry)
    ensures DomainTokens(e) == [Mark(DomainKey(e)), Mark("=")] + (DomainValue(e) + Semi(e.semi))
    ensures DomainKey(e) !in {"IDENT", "}", ";"}
    ensures DomainTokens(e) != [] && DomainTokens(e)[0].kind == DomainKey(e)
  {
    hide ListTokens;
  }

  /** A field: its key, its value, and an optional semicolon. */
  lemma FieldRead(t: seq<Token>, i: nat, key: string, body: seq<Token>, semi: bool)
    requires ReadsAt(t, i, [Mark(key), Mark("=")] + (body + Semi(semi))) && key != "IDENT"
    requires var j := i + |[Mark(key), Mark("=")] + (body + Semi(semi))|; j < |t| && t[j].kind != ";"
    ensures i + 2 + |body| + |Semi(semi)| < |t| && t[i] == Mark(key) && P.Key(t, i) == (key, i + 1)
    ensures P.Take(t, i + 1, "=") == Ok((Mark("="), i + 2)) && ReadsAt(t, i + 2, body)
    ensures P.Optional(t, i + 2 + |body|, ";") == Ok(i + 2 + |body| + |Semi(semi)|)
  {
    ReadsBoth(t, i, [Mark(key), Mark("=")], body + Semi(semi));
    ReadsBoth(t, i + 2, body, Semi(semi));
    TwoRead(t, i, Mark(key), Mark("="));
    SemiRead(t, i + 2 + |body|, semi);
    hide ReadsAt, Semi, P.Optional;
  }

  function DomainKey(e: DomainEntry): string {
    match e
    case Engine(_, _) => "engine"
    case Capabilities(_, _) => "capabilities"
    case DomainName(_, _) => "name"
    case DomainEnabled(_, _) => "enabled"
  }

  function DomainValue(e: DomainEntry): seq<Token> {
    match e
    case Engine(word, _) => [WordToken(word)]
    case Capabilities(words, _) => ListTokens(words)
    case DomainName(word, _) => [WordToken(word)]
    case DomainEnabled(on, _) => [FlagToken(on)]
  }

  lemma DomainValueRead(t: seq<Token>, i: nat, e: DomainEntry, f: P.DomainFields)
    requires ReadsAt(t, i, DomainValue(e))
    ensures P.DomainField(t, i, DomainKey(e), f) == Ok((PutDomain(f, e), i + |DomainValue(e)|))
  {
    match e
    case Capabilities(words, _) => ListRead(t, i, words); hide P.ParseList, ListTokens, ReadsAt;
    case Engine(word, _) => OneRead(t, i, WordToken(word)); hide P.ParseList, ReadsAt;
    case DomainName(word, _) => OneRead(t, i, WordToken(word)); hide P.ParseList, ReadsAt;
    case DomainEnabled(on, _) => OneRead(t, i, FlagToken(on)); hide P.ParseList, ReadsAt;
  }

  lemma {:induction false} DomainEntriesRead(t: seq<Token>, i: nat, entries: seq<DomainEntry>, f: P.DomainFields)
    requires ReadsAt(t, i, Join(DomainTokens, entries) + [Mark("}")])
    ensures P.ParseDomainFields(t, i, f) == Ok((Fold(PutDomain, f, entries), i + |Join(DomainTokens, entries)|))
    decreases |entries|
  {
    hide *;
    var closing := [Mark("}")];
    if entries == [] {
      JoinNone(DomainTokens, entries, closing);
      FoldNone(PutDomain, f, entries);
      OneRead(t, i, Mark("}"));
      DomainEnds(t, i, f);
    } else {
      var e, rest, j := entries[0], entries[1..], i + |DomainTokens(entries[0])|;
      JoinFront(DomainTokens, entries, closing);
      ReadsBoth(t, i, DomainTokens(e), Join(DomainTokens, rest) + closing);
      if rest != [] { DomainParts(rest[0]); }
      NextRead(t, j, DomainTokens, rest, closing);
      MarkKind("}");
      DomainEntryRead(t, i, e, f);
      DomainEntriesRead(t, j, rest, PutDomain(f, e));
      FoldFront(PutDomain, f, entries);
    }
  }

  lemma MarkKind(kind: string)
    ensures Mark(kind).kind == kind
  {
  }

  lemma DomainEnds(t: seq<Token>, i: nat, f: P.DomainFields)
    requires i < |t| && t[i] == Mark("}")
    ensures P.ParseDomainFields(t, i, f) == Ok((f, i))
  {
  }

  lemma HeadRead(t: seq<Token>, i: nat, keyword: string, name: Label, opener: string)
    requires ReadsAt(t, i, [Mark(keyword), LabelToken(name), Mark(opener)])
    ensures LabelOk(name) ==> P.Head(t, i, keyword, opener) == Ok((Mark(keyword), name.text, i + 3))
    ensures !LabelOk(name) ==> P.Head(t, i, keyword, opener).Err?
  {
    ThreeRead(t, i, Mark(keyword), LabelToken(name), Mark(opener));
    hide ReadsAt;
  }

  lemma DomainRead(t: seq<Token>, i: nat, name: Label, entries: seq<DomainEntry>)
    requires ReadsAt(t, i, Braced("domain", name, Join(DomainTokens, entries)))
    ensures P.ParseDomain(t, i).Ok? <==> LabelOk(name) && LastOf(EngineField, entries).Some?
    ensures P.ParseDomain(t, i).Ok? ==>
              P.ParseDomain(t, i).value
              == (DomainTree(name, entries), i + |Braced("domain", name, Join(DomainTokens, entries))|)
  {
    hide P.ParseDomainFields, P.Head, Join, Fold, LastOf, ReadsAt, Braced, PutDomain, CapabilitiesField;
    var body := Join(DomainTokens, entries);
    BracedRead(t, i, "domain", name, body);
    DomainEntriesRead(t, i + 3, entries, NO_DOMAIN);
    DomainFolds(entries);
  }

  lemma BracedRead(t: seq<Token>, i: nat, keyword: string, name: Label, body: seq<Token>)
    requires ReadsAt(t, i, Braced(keyword, name, body))
    ensures LabelOk(name) ==> P.Head(t, i, keyword, "{") == Ok((Mark(keyword), name.text, i + 3))
    ensures !LabelOk(name) ==> P.Head(t, i, keyword, "{").Err?
    ensures ReadsAt(t, i + 3, body + [Mark("}")])
    ensures i + |Braced(keyword, name, body)| == i + 3 + |body| + 1 <= |t| && t[i + 3 + |body|] == Mark("}")
  {
    var opening := [Mark(keyword), LabelToken(name), Mark("{")];
    assert Braced(keyword, name, body) == opening + (body + [Mark("}")]);
    ReadsBoth(t, i, opening, body + [Mark("}")]);
    HeadRead(t, i, keyword, name, "{");
    ReadsBoth(t, i + 3, body, [Mark("}")]);
    OneRead(t, i + 3 + |body|, Mark("}"));
    hide ReadsAt, P.Head;
  }

  // ---------------------------------------------------------------- steps

  function PutStep(f: (string, bool), e: StepEntry): (string, bool) {
    match e
    case Action(word, _) => (word.text, f.1)
    case Approval(_) => (f.0, true)
  }

  const NO_STEP := ("", false)

  lemma {:induction false} StepFolds(entries: seq<StepEntry>)
    ensures Fold(PutStep, NO_STEP, entries)
            == (Or(LastOf(ActionField, entries), ""), Or(LastOf(ApprovalField, entries), false))
  {
    if entries != [] { StepFolds(entries[..|entries| - 1]); }
  }

  lemma StepEntryRead(t: seq<Token>, i: nat, e: StepEntry, f: (string, bool))
    requires ReadsAt(t, i, StepTokens(e)) && i + |StepTokens(e)| < |t| && t[i + |StepTokens(e)|].kind != ";"
    ensures var g := PutStep(f, e);
            P.ParseStepFields(t, i, f.0, f.1) == P.ParseStepFields(t, i + |StepTokens(e)|, g.0, g.1)
  {
    hide ReadsAt, P.Optional, Semi;
    match e
    case Action(word, semi) =>
      assert StepTokens(e) == [Mark("action"), Mark("=")] + ([WordToken(word)] + Semi(semi));
      FieldRead(t, i, "action", [WordToken(word)], semi);
      OneRead(t, i + 2, WordToken(word));
    case Approval(semi) =>
      ReadsBoth(t, i, [Mark("approval")], Semi(semi));
      OneRead(t, i, Mark("approval"));
      SemiRead(t, i + 1, semi);
  }

  lemma StepStarts(e: StepEntry)
    ensures StepTokens(e) != [] && StepTokens(e)[0].kind in {"action", "approval"}
  {
  }

  lemma StepEnds(t: seq<Token>, i: nat, f: (string, bool))
    requires i < |t| && t[i] == Mark("}")
    ensures P.ParseStepFields(t, i, f.0, f.1) == Ok((f.0, f.1, i))
  {
  }

  lemma {:induction false} StepEntriesRead(t: seq<Token>, i: nat, entries: seq<StepEntry>, f: (string, bool))
    requires ReadsAt(t, i, Join(StepTokens, entries) + [Mark("}")])
    ensures var g := Fold(PutStep, f, entries);
            P.ParseStepFields(t, i, f.0, f.1) == Ok((g.0, g.1, i + |Join(StepTokens, entries)|))
    decreases |entries|
  {
    hide *;
    var closing := [Mark("}")];
    if entries == [] {
      JoinNone(StepTokens, entries, closing);
      FoldNone(PutStep, f, entries);
      OneRead(t, i, Mark("}"));
      StepEnds(t, i, f);
    } else {
      var e, rest, j := entries[0], entries[1..], i + |StepTokens(entries[0])|;
      JoinFront(StepTokens, entries, closing);
      ReadsBoth(t, i, StepTokens(e), Join(StepTokens, rest) + closing);
      if rest != [] { StepStarts(rest[0]); }
      NextRead(t, j, StepTokens, rest, closing);
      MarkKind("}");
      StepEntryRead(t, i, e, f);
      StepEntriesRead(t, j, rest, PutStep(f, e));
      FoldFront(PutStep, f, entries);
    }
  }

  lemma StepRead(t: seq<Token>, i: nat, name: Label, entries: seq<StepEntry>)
    requires ReadsAt(t, i, Braced("step", name, Join(StepTokens, entries)))
    ensures P.ParseStep(t, i).Ok? <==> StepComplete(name, entries)
    ensures P.ParseStep(t, i).Ok? ==>
              P.ParseStep(t, i).value
              == (StepTree(name, entries), i + |Braced("step", name, Join(StepTokens, entries))|)
  {
    hide P.ParseStepFields, P.Head, Join, Fold, LastOf, ReadsAt, Braced, PutStep;
    var body := Join(StepTokens, entries);
    BracedRead(t, i, "step", name, body);
    StepEntriesRead(t, i + 3, entries, NO_STEP);
    StepFolds(entries);
  }

  // ---------------------------------------------------------------- workflows

  function PutWorkflow(f: P.WorkflowFields, e: WorkflowEntry): P.WorkflowFields {
    match e
    case Trigger(word, _) => f.(trigger := word.text)
    case WorkflowName(word, _) => f.(name := Some(word.text))
    case WorkflowEnabled(on, _) => f.(enabled := on)
    case Step(name, entries) => f.(steps := f.steps + [StepTree(name, entries)])
  }

  const NO_WORKFLOW := P.WorkflowFields("", [], None, true)

  lemma {:induction false} WorkflowFolds(entries: seq<WorkflowEntry>)
    ensures Fold(PutWorkflow, NO_WORKFLOW, entries)
            == P.WorkflowFields(Or(LastOf(TriggerField, entries), ""), AllOf(StepField, entries),
                                LastOf(WorkflowNameField, entries), Or(LastOf(WorkflowEnabledField, entries), true))
  {
    hide StepTree;
    if entries != [] { WorkflowFolds(entries[..|entries| - 1]); }
  }

  /** The steps among the entries are complete. */
  predicate StepsComplete(entries: seq<WorkflowEntry>) {
    forall e :: e in entries && e.Step? ==> StepComplete(e.name, e.entries)
  }

  function WorkflowKey(e: WorkflowEntry): string {
    match e
    case Trigger(_, _) => "trigger"
    case WorkflowName(_, _) => "name"
    case WorkflowEnabled(_, _) => "enabled"
    case Step(_, _) => "step"
  }

  lemma WorkflowStarts(e: WorkflowEntry)
    ensures WorkflowTokens(e) != [] && WorkflowTokens(e)[0].kind == WorkflowKey(e)
    ensures WorkflowKey(e) !in {"IDENT", "}", ";"} && (WorkflowKey(e) == "step" <==> e.Step?)
  {
    hide Join;
    assert |"trigger"| == 7 && |"name"| == 4 && |"enabled"| == 7 && |"step"| == 4;
    assert "name"[0] == 'n' && "step"[0] == 's';
  }

  function WorkflowToken(e: WorkflowEntry): Token
    requires !e.Step?
  {
    if e.WorkflowEnabled? then FlagToken(e.on) else WordToken(e.word)
  }

  lemma WorkflowValueRead(t: seq<Token>, i: nat, e: WorkflowEntry, f: P.WorkflowFields)
    requires !e.Step? && i < |t| && t[i] == WorkflowToken(e)
    ensures P.WorkflowField(t, i, WorkflowKey(e), f) == Ok((PutWorkflow(f, e), i + 1))
  {
  }

  lemma WorkflowFieldRead(t: seq<Token>, i: nat, e: WorkflowEntry, f: P.WorkflowFields)
    requires !e.Step? && ReadsAt(t, i, WorkflowTokens(e))
    requires i + |WorkflowTokens(e)| < |t| && t[i + |WorkflowTokens(e)|].kind != ";"
    ensures P.ParseWorkflowItems(t, i, f) == P.ParseWorkflowItems(t, i + |WorkflowTokens(e)|, PutWorkflow(f, e))
  {
    hide ReadsAt, P.Optional, Semi, P.WorkflowField, PutWorkflow, WorkflowToken, WorkflowKey, WorkflowTokens;
    var key, body := WorkflowKey(e), [WorkflowToken(e)];
    WorkflowStarts(e);
    WorkflowParts(e);
    FieldRead(t, i, key, body, e.semi);
    OneRead(t, i + 2, WorkflowToken(e));
    WorkflowValueRead(t, i + 2, e, f);
  }

  lemma WorkflowParts(e: WorkflowEntry)
    requires !e.Step?
    ensures WorkflowTokens(e) == [Mark(WorkflowKey(e)), Mark("=")] + ([WorkflowToken(e)] + Semi(e.semi))
  {
  }

  lemma WorkflowStepRead(t: seq<Token>, i: nat, e: WorkflowEntry, f: P.WorkflowFields)
    requires e.Step? && ReadsAt(t, i, WorkflowTokens(e))
    ensures if StepComplete(e.name, e.entries)
            then P.ParseWorkflowItems(t, i, f) == P.ParseWorkflowItems(t, i + |WorkflowTokens(e)|, PutWorkflow(f, e))
            else P.ParseWorkflowItems(t, i, f).Err?
  {
    hide ReadsAt, Braced, Join, P.ParseStep, StepTree, StepComplete;
    BracedRead(t, i, "step", e.name, Join(StepTokens, e.entries));
    StepRead(t, i, e.name, e.entries);
    BracedStarts(t, i, "step", e.name, Join(StepTokens, e.entries));
  }

  lemma BracedStarts(t: seq<Token>, i: nat, keyword: string, name: Label, body: seq<Token>)
    requires ReadsAt(t, i, Braced(keyword, name, body))
    ensures i < |t| && t[i].kind == keyword
  {
    assert Braced(keyword, name, body) == [Mark(keyword)] + ([LabelToken(name), Mark("{")] + body + [Mark("}")]);
    ReadsBoth(t, i, [Mark(keyword)], [LabelToken(name), Mark("{")] + body + [Mark("}")]);
    OneRead(t, i, Mark(keyword));
  }

  lemma WorkflowEnds(t: seq<Token>, i: nat, f: P.WorkflowFields)
    requires i < |t| && t[i] == Mark("}")
    ensures P.ParseWorkflowItems(t, i, f) == Ok((f, i))
  {
  }

  lemma StepsCompleteFront(entries: seq<WorkflowEntry>)
    requires entries != []
    ensures StepsComplete(entries) <==>
              (entries[0].Step? ==> StepComplete(entries[0].name, entries[0].entries)) && StepsComplete(entries[1..])
  {
    hide StepComplete;
    assert entries == [entries[0]] + entries[1..];
  }

  lemma NoSteps(entries: seq<WorkflowEntry>)
    requires entries == []
    ensures StepsComplete(entries)
  {
  }

  lemma {:induction false} WorkflowEntriesRead(t: seq<Token>, i: nat, entries: seq<WorkflowEntry>, f: P.WorkflowFields)
    requires ReadsAt(t, i, Join(WorkflowTokens, entries) + [Mark("}")])
    ensures if StepsComplete(entries)
            then P.ParseWorkflowItems(t, i, f)
                 == Ok((Fold(PutWorkflow, f, entries), i + |Join(WorkflowTokens, entries)|))
            else P.ParseWorkflowItems(t, i, f).Err?
    decreases |entries|
  {
    hide *;
    var closing := [Mark("}")];
    if entries == [] {
      JoinNone(WorkflowTokens, entries, closing);
      FoldNone(PutWorkflow, f, entries);
      NoSteps(entries);
      OneRead(t, i, Mark("}"));
      WorkflowEnds(t, i, f);
    } else {
      var e, rest, j := entries[0], entries[1..], i + |WorkflowTokens(entries[0])|;
      JoinFront(WorkflowTokens, entries, closing);
      ReadsBoth(t, i, WorkflowTokens(e), Join(WorkflowTokens, rest) + closing);
      if rest != [] { WorkflowStarts(rest[0]); }
      NextRead(t, j, WorkflowTokens, rest, closing);
      MarkKind("}");
      StepsCompleteFront(entries);
      if e.Step? { WorkflowStepRead(t, i, e, f); } else { WorkflowFieldRead(t, i, e, f); }
      WorkflowEntriesRead(t, j, rest, PutWorkflow(f, e));
      FoldFront(PutWorkflow, f, entries);
    }
  }

  lemma WorkflowRead(t: seq<Token>, i: nat, name: Label, entries: seq<WorkflowEntry>)
    requires ReadsAt(t, i, Braced("workflow", name, Join(WorkflowTokens, entries)))
    ensures P.ParseWorkflow(t, i).Ok? <==> WorkflowComplete(name, entries)
    ensures P.ParseWorkflow(t, i).Ok? ==>
              P.ParseWorkflow(t, i).value
              == (WorkflowTree(name, entries), i + |Braced("workflow", name, Join(WorkflowTokens, entries))|)
  {
    hide P.ParseWorkflowItems, P.Head, Join, Fold, LastOf, AllOf, ReadsAt, Braced, PutWorkflow, StepComplete, StepTree;
    var body := Join(WorkflowTokens, entries);
    BracedRead(t, i, "workflow", name, body);
    WorkflowEntriesRead(t, i + 3, entries, NO_WORKFLOW);
    WorkflowFolds(entries);
  }

  // ---------------------------------------------------------------- organizations

  function PutOrganization(f: (string, string), e: OrganizationEntry): (string, string) {
    match e
    case OrganizationCode(word) => (word.text, f.1)
    case OrganizationName(word) => (f.0, word.text)
  }

  const NO_ORGANIZATION := ("", "")

  lemma {:induction false} OrganizationFolds(fields: seq<OrganizationEntry>)
    ensures Fold(PutOrganization, NO_ORGANIZATION, fields)
            == (Or(LastOf(CodeField, fields), ""), Or(LastOf(NameField, fields), ""))
  {
    if fields != [] { OrganizationFolds(fields[..|fields| - 1]); }
  }

  lemma OrganizationEntryRead(t: seq<Token>, i: nat, e: OrganizationEntry, f: (string, string))
    requires ReadsAt(t, i, OrganizationTokens(e))
    ensures var g := PutOrganization(f, e);
            P.OrganizationFields(t, i, f.0, f.1) == P.OrganizationFields(t, i + 3, g.0, g.1)
    ensures |OrganizationTokens(e)| == 3
  {
    var key := if e.OrganizationCode? then Tok("IDENT", "code") else Mark("name");
    ThreeRead(t, i, key, Mark("="), WordToken(e.word));
    hide ReadsAt;
    assert |"code"| == 4 && "code"[0] == 'c' && "name"[0] == 'n';
  }

  lemma OrganizationEnds(t: seq<Token>, i: nat, f: (string, string))
    requires i < |t|
    ensures t[i].kind in P.ORGANIZATION_ENDS ==> P.OrganizationFields(t, i, f.0, f.1) == Ok((f.0, f.1, i))
    ensures t[i].kind == "organization" ==> P.OrganizationFields(t, i, f.0, f.1).Err?
  {
  }

  lemma {:induction false} OrganizationFieldsRead(t: seq<Token>, i: nat, fields: seq<OrganizationEntry>,
                                                  f: (string, string), tail: Token)
    requires ReadsAt(t, i, Join(OrganizationTokens, fields) + [tail])
    ensures tail.kind in P.ORGANIZATION_ENDS ==>
              var g := Fold(PutOrganization, f, fields);
              P.OrganizationFields(t, i, f.0, f.1) == Ok((g.0, g.1, i + |Join(OrganizationTokens, fields)|))
    ensures tail.kind == "organization" ==> P.OrganizationFields(t, i, f.0, f.1).Err?
    decreases |fields|
  {
    hide *;
    if fields == [] {
      JoinNone(OrganizationTokens, fields, [tail]);
      FoldNone(PutOrganization, f, fields);
      OneRead(t, i, tail);
      OrganizationEnds(t, i, f);
    } else {
      var e, rest := fields[0], fields[1..];
      JoinFront(OrganizationTokens, fields, [tail]);
      ReadsBoth(t, i, OrganizationTokens(e), Join(OrganizationTokens, rest) + [tail]);
      OrganizationEntryRead(t, i, e, f);
      OrganizationFieldsRead(t, i + 3, rest, PutOrganization(f, e), tail);
      FoldFront(PutOrganization, f, fields);
    }
  }

  predicate Placeless(x: Token) { x == Tok(x.kind, x.value) }

  /** What may follow a declaration: a semicolon, another declaration, or the end. */
  const FOLLOWERS: set<string> := {";", "organization", "domain", "workflow", "policy", "metadata", "}"}

  lemma OrganizationRead(t: seq<Token>, i: nat, fields: seq<OrganizationEntry>, tail: Token)
    requires ReadsAt(t, i, [Mark("organization")] + (Join(OrganizationTokens, fields) + [tail]))
    requires tail.kind in FOLLOWERS && Placeless(tail)
    ensures var tree := OrganizationTree(fields);
            if tree.code != "" && tree.name != "" && tail.kind != "organization"
            then P.ParseOrganization(t, i) == Ok((tree, i + 1 + |Join(OrganizationTokens, fields)|))
            else P.ParseOrganization(t, i).Err?
  {
    var body := Join(OrganizationTokens, fields);
    hide Join, Fold, LastOf, ReadsAt, P.OrganizationFields, PutOrganization;
    ReadsBoth(t, i, [Mark("organization")], body + [tail]);
    OneRead(t, i, Mark("organization"));
    OrganizationFieldsRead(t, i + 1, fields, NO_ORGANIZATION, tail);
    OrganizationFolds(fields);
    ReadsBoth(t, i + 1, body, [tail]);
    OneRead(t, i + 1 + |body|, tail);
    FollowersEnd(tail.kind);
  }

  lemma FollowersEnd(kind: string)
    requires kind in FOLLOWERS
    ensures kind in P.ORGANIZATION_ENDS || kind == "organization"
  {
  }

  // ---------------------------------------------------------------- policies and metadata

  lemma PolicyRead(t: seq<Token>, i: nat, name: Label, words: seq<Word>)
    requires ReadsAt(t, i, [Mark("policy"), LabelToken(name), Mark("=")] + ListTokens(words))
    requires i + 3 + |ListTokens(words)| < |t| && Placeless(t[i + 3 + |ListTokens(words)|])
    ensures if LabelOk(name)
            then P.ParsePolicy(t, i)
                 == Ok((Policy(name.text, MapSeq(TextOf, words), NOWHERE), i + 3 + |ListTokens(words)|))
            else P.ParsePolicy(t, i).Err?
  {
    hide ReadsAt, ListTokens, MapSeq, P.ParseList, P.Head;
    ReadsBoth(t, i, [Mark("policy"), LabelToken(name), Mark("=")], ListTokens(words));
    HeadRead(t, i, "policy", name, "=");
    ListRead(t, i + 3, words);
  }

  lemma MetadataRead(t: seq<Token>, i: nat, name: Label, literal: Literal)
    requires ReadsAt(t, i, [Mark("metadata"), LabelToken(name), Mark("=")] + [LiteralToken(literal)])
    ensures if LabelOk(name) then P.ParseMetadata(t, i) == Ok((Metadata(name.text, LiteralTree(literal)), i + 4))
            else P.ParseMetadata(t, i).Err?
  {
    hide ReadsAt, P.Head;
    ReadsBoth(t, i, [Mark("metadata"), LabelToken(name), Mark("=")], [LiteralToken(literal)]);
    HeadRead(t, i, "metadata", name, "=");
    OneRead(t, i + 3, LiteralToken(literal));
  }

  // ---------------------------------------------------------------- declarations

  function PutItem(f: P.Items, x: Item): P.Items {
    match x
    case OrganizationItem(fields, _) => f.(organization := Some(OrganizationTree(fields)))
    case DomainItem(name, domain, _) => f.(domains := f.domains + [DomainTree(name, domain)])
    case WorkflowItem(name, workflow, _) => f.(workflows := f.workflows + [WorkflowTree(name, workflow)])
    case PolicyItem(name, words, _) => f.(policies := f.policies + [Policy(name.text, MapSeq(TextOf, words), NOWHERE)])
    case MetadataItem(name, literal, _) => f.(metadata := f.metadata + [Metadata(name.text, LiteralTree(literal))])
  }

  const NO_ITEMS := P.Items(None, [], [], [], [])

  lemma {:induction false} ItemsFold(items: seq<Item>)
    ensures Fold(PutItem, NO_ITEMS, items)
            == P.Items(LastOf(OrganizationDecl, items), AllOf(DomainDecl, items), AllOf(WorkflowDecl, items),
                       AllOf(PolicyDecl, items), AllOf(MetadataDecl, items))
  {
    hide OrganizationTree, DomainTree, WorkflowTree, LiteralTree, MapSeq;
    if items != [] { ItemsFold(items[..|items| - 1]); }
  }

  function ItemKeyword(x: Item): string {
    match x
    case OrganizationItem(_, _) => "organization"
    case DomainItem(_, _, _) => "domain"
    case WorkflowItem(_, _, _) => "workflow"
    case PolicyItem(_, _, _) => "policy"
    case MetadataItem(_, _, _) => "metadata"
  }

  function ItemBody(x: Item): seq<Token> {
    match x
    case OrganizationItem(fields, _) => [Mark("organization")] + Join(OrganizationTokens, fields)
    case DomainItem(name, domain, _) => Braced("domain", name, Join(DomainTokens, domain))
    case WorkflowItem(name, workflow, _) => Braced("workflow", name, Join(WorkflowTokens, workflow))
    case PolicyItem(name, words, _) => [Mark("policy"), LabelToken(name), Mark("=")] + ListTokens(words)
    case MetadataItem(name, literal, _) =>
      [Mark("metadata"), LabelToken(name), Mark("="), LiteralToken(literal)]
  }

  lemma ItemParts(x: Item)
    ensures ItemTokens(x) == ItemBody(x) + Semi(x.semi)
    ensures ItemBody(x) != [] && ItemBody(x)[0] == Mark(ItemKeyword(x))
    ensures ItemKeyword(x) in FOLLOWERS && ItemKeyword(x) !in {";", "}"}
    ensures ItemKeyword(x) == "organization" <==> x.OrganizationItem?
  {
    hide Join, ListTokens;
    assert |"organization"| == 12 && |"domain"| == 6 && |"workflow"| == 8 && |"policy"| == 6 && |"metadata"| == 8;
  }

  /** The declaration may stand before the token. */
  predicate Fits(x: Item, follow: Token) { x.OrganizationItem? ==> follow.kind != "organization" }

  lemma OrganizationItemRead(t: seq<Token>, i: nat, x: Item, f: P.Items, follow: Token)
    requires x.OrganizationItem? && ReadsAt(t, i, ItemBody(x) + [follow])
    requires follow.kind in FOLLOWERS && Placeless(follow)
    ensures if ItemComplete(x) && Fits(x, follow) then P.ParseItem(t, i, f) == Ok((PutItem(f, x), i + |ItemBody(x)|))
            else P.ParseItem(t, i, f).Err?
  {
    var body := Join(OrganizationTokens, x.fields);
    hide ReadsAt, Join, OrganizationTree, P.ParseOrganization, FOLLOWERS;
    assert ItemBody(x) + [follow] == [Mark("organization")] + (body + [follow]);
    ReadsBoth(t, i, [Mark("organization")], body + [follow]);
    OneRead(t, i, Mark("organization"));
    OrganizationRead(t, i, x.fields, follow);
  }

  lemma BracedItemRead(t: seq<Token>, i: nat, x: Item, f: P.Items)
    requires (x.DomainItem? || x.WorkflowItem?) && ReadsAt(t, i, ItemBody(x))
    ensures if ItemComplete(x) then P.ParseItem(t, i, f) == Ok((PutItem(f, x), i + |ItemBody(x)|))
            else P.ParseItem(t, i, f).Err?
  {
    hide ReadsAt, Join, Braced, DomainTree, WorkflowTree, WorkflowComplete, P.ParseDomain, P.ParseWorkflow, LastOf;
    if x.DomainItem? {
      BracedStarts(t, i, "domain", x.name, Join(DomainTokens, x.domain));
      DomainRead(t, i, x.name, x.domain);
    } else {
      BracedStarts(t, i, "workflow", x.name, Join(WorkflowTokens, x.workflow));
      WorkflowRead(t, i, x.name, x.workflow);
    }
  }

  lemma PlainItemRead(t: seq<Token>, i: nat, x: Item, f: P.Items, follow: Token)
    requires (x.PolicyItem? || x.MetadataItem?) && ReadsAt(t, i, ItemBody(x) + [follow]) && Placeless(follow)
    ensures if ItemComplete(x) then P.ParseItem(t, i, f) == Ok((PutItem(f, x), i + |ItemBody(x)|))
            else P.ParseItem(t, i, f).Err?
  {
    hide ReadsAt, ListTokens, LiteralTree, LiteralToken, P.ParsePolicy, P.ParseMetadata, MapSeq;
    ReadsBoth(t, i, ItemBody(x), [follow]);
    OneRead(t, i + |ItemBody(x)|, follow);
    var opening := [Mark(ItemKeyword(x)), LabelToken(x.name), Mark("=")];
    if x.PolicyItem? {
      ReadsBoth(t, i, opening, ListTokens(x.words));
      PolicyRead(t, i, x.name, x.words);
    } else {
      assert ItemBody(x) == opening + [LiteralToken(x.literal)];
      ReadsBoth(t, i, opening, [LiteralToken(x.literal)]);
      MetadataRead(t, i, x.name, x.literal);
    }
    ThreeRead(t, i, Mark(ItemKeyword(x)), LabelToken(x.name), Mark("="));
  }

  lemma ItemBodyRead(t: seq<Token>, i: nat, x: Item, f: P.Items, follow: Token)
    requires ReadsAt(t, i, ItemBody(x) + [follow]) && follow.kind in FOLLOWERS && Placeless(follow)
    ensures if ItemComplete(x) && Fits(x, follow) then P.ParseItem(t, i, f) == Ok((PutItem(f, x), i + |ItemBody(x)|))
            else P.ParseItem(t, i, f).Err?
    ensures i < |t| && t[i].kind == ItemKeyword(x)
  {
    hide ReadsAt, ItemBody, ItemComplete, PutItem, P.ParseItem, FOLLOWERS, Placeless;
    ReadsBoth(t, i, ItemBody(x), [follow]);
    ItemParts(x);
    assert ItemBody(x) == [ItemBody(x)[0]] + ItemBody(x)[1..];
    ReadsBoth(t, i, [ItemBody(x)[0]], ItemBody(x)[1..]);
    OneRead(t, i, ItemBody(x)[0]);
    if x.OrganizationItem? { OrganizationItemRead(t, i, x, f, follow); }
    else if x.DomainItem? || x.WorkflowItem? { BracedItemRead(t, i, x, f); }
    else { PlainItemRead(t, i, x, f, follow); }
  }

  /** One declaration, its semicolon if it has one, and the token after it. */
  lemma ItemRead(t: seq<Token>, i: nat, x: Item, f: P.Items, tail: Token)
    requires ReadsAt(t, i, ItemTokens(x) + [tail])
    requires tail.kind in FOLLOWERS && tail.kind != ";" && Placeless(tail)
    ensures if ItemComplete(x) && (x.semi || Fits(x, tail))
            then P.ParseItems(t, i, f) == P.ParseItems(t, i + |ItemTokens(x)|, PutItem(f, x))
            else P.ParseItems(t, i, f).Err?
  {
    hide ReadsAt, ItemTokens, ItemBody, ItemComplete, PutItem, P.ParseItem, P.Optional;
    ItemParts(x);
    var body, follow := ItemBody(x), if x.semi then Mark(";") else tail;
    if x.semi {
      assert ItemTokens(x) + [tail] == body + [follow] + [tail];
      ReadsBoth(t, i, body + [follow], [tail]);
    } else {
      assert ItemTokens(x) + [tail] == body + [follow];
    }
    ItemBodyRead(t, i, x, f, follow);
    assert ItemTokens(x) + [tail] == body + (Semi(x.semi) + [tail]);
    ReadsBoth(t, i, body, Semi(x.semi) + [tail]);
    ReadsBoth(t, i + |body|, Semi(x.semi), [tail]);
    OneRead(t, i + |ItemTokens(x)|, tail);
    SemiRead(t, i + |body|, x.semi);
  }

  lemma ItemsEnd(t: seq<Token>, i: nat, f: P.Items)
    requires i < |t| && t[i] == Mark("}")
    ensures P.ParseItems(t, i, f) == Ok((f, i))
  {
  }

  lemma ItemsCompleteFront(items: seq<Item>)
    requires items != []
    ensures ItemsComplete(items) <==>
              && ItemComplete(items[0]) && (|items| > 1 ==> Separated(items[0], items[1]))
              && ItemsComplete(items[1..])
  {
    hide ItemComplete, Separated;
    var rest := items[1..];
    assert items == [items[0]] + rest;
    if ItemsComplete(items) {
      forall k | 0 <= k < |rest| - 1 ensures Separated(rest[k], rest[k + 1]) {
        assert Separated(items[k + 1], items[k + 1 + 1]);
      }
    }
    if ItemsComplete(rest) && ItemComplete(items[0]) && (|items| > 1 ==> Separated(items[0], items[1])) {
      forall k | 0 <= k < |items| - 1 ensures Separated(items[k], items[k + 1]) {
        if k > 0 { assert Separated(rest[k - 1], rest[k - 1 + 1]); }
      }
    }
  }

  lemma NoItems(items: seq<Item>)
    requires items == []
    ensures ItemsComplete(items)
  {
  }

  /** The first token of a declaration fits what comes before it exactly when the declarations are separated. */
  lemma FitsIffSeparated(x: Item, rest: seq<Item>)
    ensures rest != [] ==> (x.semi || Fits(x, ItemTokens(rest[0])[0]) <==> Separated(x, rest[0]))
    ensures rest != [] ==> ItemTokens(rest[0]) != [] && ItemTokens(rest[0])[0] == Mark(ItemKeyword(rest[0]))
    ensures rest == [] ==> Fits(x, Mark("}"))
  {
    if rest != [] {
      ItemParts(rest[0]);
      hide ItemTokens, ItemBody;
    }
  }

  lemma {:induction false} ItemsRead(t: seq<Token>, i: nat, items: seq<Item>, f: P.Items)
    requires ReadsAt(t, i, Join(ItemTokens, items) + [Mark("}")])
    ensures if ItemsComplete(items)
            then P.ParseItems(t, i, f) == Ok((Fold(PutItem, f, items), i + |Join(ItemTokens, items)|))
            else P.ParseItems(t, i, f).Err?
    decreases |items|
  {
    hide *;
    var closing := [Mark("}")];
    if items == [] {
      JoinNone(ItemTokens, items, closing);
      FoldNone(PutItem, f, items);
      NoItems(items);
      OneRead(t, i, Mark("}"));
      ItemsEnd(t, i, f);
    } else {
      var x, rest, j := items[0], items[1..], i + |ItemTokens(items[0])|;
      JoinFront(ItemTokens, items, closing);
      ReadsBoth(t, i, ItemTokens(x), Join(ItemTokens, rest) + closing);
      FitsIffSeparated(x, rest);
      NextRead(t, j, ItemTokens, rest, closing);
      var tail := t[j];
      ReadsBoth(t, i, ItemTokens(x), [tail]);
      OneRead(t, j, tail);
      TailFollows(rest, tail);
      ItemsCompleteFront(items);
      ItemRead(t, i, x, f, tail);
      ItemsRead(t, j, rest, PutItem(f, x));
      FoldFront(PutItem, f, items);
    }
  }

  lemma TailFollows(rest: seq<Item>, tail: Token)
    requires tail == if rest == [] then Mark("}") else Mark(ItemKeyword(rest[0]))
    ensures tail.kind in FOLLOWERS && tail.kind != ";" && Placeless(tail)
  {
    if rest != [] { ItemParts(rest[0]); }
    hide ItemTokens, ItemBody;
  }

  // ---------------------------------------------------------------- the module

  /** Main result: the parser accepts a written source if and only if it is complete, and then builds its tree. */
  lemma SourceRead(t: seq<Token>, c: Source)
    requires ReadsAt(t, 0, SourceTokens(c))
    ensures P.Parse(t).Ok? <==> Complete(c)
    ensures P.Parse(t).Ok? ==> P.Parse(t).value == TreeOf(c)
  {
    var body := Join(ItemTokens, c.items) + [Mark("}")];
    ModuleHeadRead(t, c);
    hide ReadsAt, SourceTokens, Join, Fold, P.ModuleHead, P.ParseItems, PutItem, ItemsComplete, LastOf, AllOf;
    ItemsRead(t, 5, c.items, NO_ITEMS);
    ItemsFold(c.items);
    ReadsBoth(t, 5, Join(ItemTokens, c.items), [Mark("}")]);
    OneRead(t, 5 + |Join(ItemTokens, c.items)|, Mark("}"));
  }

  lemma ModuleHeadRead(t: seq<Token>, c: Source)
    requires ReadsAt(t, 0, SourceTokens(c))
    ensures LabelOk(c.name) ==> P.ModuleHead(t) == Ok((Mark("module"), c.name.text, c.version.text, 5))
    ensures !LabelOk(c.name) ==> P.ModuleHead(t).Err?
    ensures ReadsAt(t, 5, Join(ItemTokens, c.items) + [Mark("}")])
  {
    hide ReadsAt, SourceTokens, Join, P.Head;
    var opening, version := [Mark("module"), LabelToken(c.name), Mark("version")], [WordToken(c.version), Mark("{")];
    var body := Join(ItemTokens, c.items) + [Mark("}")];
    SourceParts(c);
    ReadsBoth(t, 0, opening, version + body);
    ReadsBoth(t, 3, version, body);
    HeadRead(t, 0, "module", c.name, "version");
    TwoRead(t, 3, WordToken(c.version), Mark("{"));
  }

  lemma SourceParts(c: Source)
    ensures SourceTokens(c) == [Mark("module"), LabelToken(c.name), Mark("version")]
                               + ([WordToken(c.version), Mark("{")] + (Join(ItemTokens, c.items) + [Mark("}")]))
  {
    hide Join;
  }
}
