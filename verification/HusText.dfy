/** From the grammar to a text and back: a source that is spelled out parses to the tree that it stands for. */
module HusText {
  import opened HusAst
  import opened HusGrammar
  import opened HusLexemes
  import opened HusReading
  import opened Outcomes
  import L = HusLexer
  import P = HusParser
  import R = HusRoundTrip
  import S = HusSyntax

  // ---------------------------------------------------------------- written tokens have no place

  ghost predicate NoPlaces(s: seq<Token>) { forall k :: 0 <= k < |s| ==> S.StripToken(s[k]) == s[k] }

  lemma {:induction false} WordsNoPlaces(words: seq<Word>)
    ensures NoPlaces(ListTokens(words)) && NoPlaces(WordTokens(words))
  {
    if |words| > 1 { WordsNoPlaces(words[1..]); }
  }

  lemma {:induction false} JoinNoPlaces<E(!new)>(tokens: E -> seq<Token>, parts: seq<E>)
    requires forall e :: NoPlaces(tokens(e))
    ensures NoPlaces(Join(tokens, parts))
  {
    if parts != [] { JoinNoPlaces(tokens, parts[1..]); }
  }

  lemma DomainNoPlaces(e: DomainEntry)
    ensures NoPlaces(DomainTokens(e))
  {
    if e.Capabilities? { WordsNoPlaces(e.words); }
    hide ListTokens;
  }

  lemma WorkflowNoPlaces(e: WorkflowEntry)
    ensures NoPlaces(WorkflowTokens(e))
  {
    if e.Step? { JoinNoPlaces(StepTokens, e.entries); }
    hide Join;
  }

  lemma OrganizationNoPlaces(e: OrganizationEntry)
    ensures NoPlaces(OrganizationTokens(e))
  {
  }

  lemma ItemNoPlaces(x: Item)
    ensures NoPlaces(ItemTokens(x))
  {
    hide Join, OrganizationTokens, DomainTokens, WorkflowTokens, ListTokens;
    match x
    case OrganizationItem(fields, _) =>
      forall e ensures NoPlaces(OrganizationTokens(e)) { OrganizationNoPlaces(e); }
      JoinNoPlaces(OrganizationTokens, fields);
    case DomainItem(_, domain, _) =>
      forall e ensures NoPlaces(DomainTokens(e)) { DomainNoPlaces(e); }
      JoinNoPlaces(DomainTokens, domain);
    case WorkflowItem(_, workflow, _) =>
      forall e ensures NoPlaces(WorkflowTokens(e)) { WorkflowNoPlaces(e); }
      JoinNoPlaces(WorkflowTokens, workflow);
    case PolicyItem(_, words, _) => WordsNoPlaces(words);
    case MetadataItem(_, _, _) =>
  }

  lemma SourceNoPlaces(c: Source)
    ensures NoPlaces(SourceTokens(c))
  {
    forall x ensures NoPlaces(ItemTokens(x)) { ItemNoPlaces(x); }
    JoinNoPlaces(ItemTokens, c.items);
    hide Join, ItemTokens;
  }

  lemma ReadsWhole(t: seq<Token>, tokens: seq<Token>)
    requires L.SameTokens(tokens + [Eof()], t)
    requires NoPlaces(tokens)
    ensures ReadsAt(S.Strip(t), 0, tokens)
  {
    var all := tokens + [Eof()];
    forall k | 0 <= k < |tokens| ensures S.Strip(t)[k] == tokens[k] {
      assert all[k] == tokens[k] && all[k].kind == t[k].kind && all[k].value == t[k].value;
    }
  }

  /** Main result: spell out the tokens of any complete source, set apart by spaces, and the text parses to the tree
      that the source stands for. */
  lemma SpelledOutParses(c: Source, xs: seq<string>, decode: L.Decoder)
    requires Complete(c) && SpellOut(SourceTokens(c), xs, decode)
    ensures var lexed := L.Lex(Lay(xs), decode);
            && lexed.Ok? && P.Parse(lexed.value).Ok?
            && Plain(P.Parse(lexed.value).value) == TreeOf(c)
  {
    hide *;
    SpelledOutLexes(SourceTokens(c), xs, 0, 1, 1, decode);
    LexIsLexFrom(Lay(xs), decode);
    var t := L.Lex(Lay(xs), decode).value;
    SourceNoPlaces(c);
    ReadsWhole(t, SourceTokens(c));
    R.TextParsesIff(Lay(xs), decode);
  }

  lemma LexIsLexFrom(source: string, decode: L.Decoder)
    ensures L.Lex(source, decode) == L.LexFrom(source, 0, 1, 1, decode)
  {
    hide L.LexFrom;
  }
}
