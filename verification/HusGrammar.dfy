/** The grammar of HUS sources: what can be written, as which tokens, and which tree it stands for.

    Fields and declarations come in any order and may repeat: the last value of a field counts, and lists keep the
    order of their declarations. Nothing here is said in terms of the parser. */
module HusGrammar {
  import opened HusAst
  import opened Outcomes
  import L = HusLexer

  type Token = L.Token

  /** A token without its place, and one that is its own kind. */
  function Tok(kind: string, text: string): Token { L.Token(kind, text, 0, 0, 0, 0) }

  function Mark(kind: string): Token { Tok(kind, kind) }

  // ---------------------------------------------------------------- what can be written

  /** A value in quotes, or a bare one. */
  datatype Word = Word(quoted: bool, text: string)

  /** A name: an identifier, or one of the keywords that may serve as one. */
  datatype Label = Label(kind: string, text: string)

  datatype Literal = Quoted(text: string) | Bare(text: string) | Number(text: string) | Boolean(flag: bool)

  datatype OrganizationEntry = OrganizationCode(word: Word) | OrganizationName(word: Word)

  datatype DomainEntry =
    | Engine(word: Word, semi: bool)
    | Capabilities(words: seq<Word>, semi: bool)
    | DomainName(word: Word, semi: bool)
    | DomainEnabled(on: bool, semi: bool)

  datatype StepEntry = Action(word: Word, semi: bool) | Approval(semi: bool)

  datatype WorkflowEntry =
    | Trigger(word: Word, semi: bool)
    | WorkflowName(word: Word, semi: bool)
    | WorkflowEnabled(on: bool, semi: bool)
    | Step(name: Label, entries: seq<StepEntry>)

  datatype Item =
    | OrganizationItem(fields: seq<OrganizationEntry>, semi: bool)
    | DomainItem(name: Label, domain: seq<DomainEntry>, semi: bool)
    | WorkflowItem(name: Label, workflow: seq<WorkflowEntry>, semi: bool)
    | PolicyItem(name: Label, words: seq<Word>, semi: bool)
    | MetadataItem(name: Label, literal: Literal, semi: bool)

  datatype Source = Source(name: Label, version: Word, items: seq<Item>)

  // ---------------------------------------------------------------- its tokens

  /** The tokens of a list of parts, one after the other. */
  function Join<E>(tokens: E -> seq<Token>, parts: seq<E>): seq<Token> {
    if parts == [] then [] else tokens(parts[0]) + Join(tokens, parts[1..])
  }

  function WordToken(w: Word): Token { Tok(if w.quoted then "STRING" else "IDENT", w.text) }

  function LabelToken(n: Label): Token { Tok(n.kind, n.text) }

  function FlagToken(on: bool): Token { Mark(if on then "true" else "false") }

  function LiteralToken(x: Literal): Token {
    match x
    case Quoted(text) => Tok("STRING", text)
    case Bare(text) => Tok("IDENT", text)
    case Number(text) => Tok("NUMBER", text)
    case Boolean(flag) => FlagToken(flag)
  }

  function Semi(semi: bool): seq<Token> { if semi then [Mark(";")] else [] }

  /** The inside of a list. */
  function WordTokens(words: seq<Word>): seq<Token> {
    if words == [] then []
    else if |words| == 1 then [WordToken(words[0])]
    else [WordToken(words[0]), Mark(",")] + WordTokens(words[1..])
  }

  function ListTokens(words: seq<Word>): seq<Token> { [Mark("[")] + WordTokens(words) + [Mark("]")] }

  function OrganizationTokens(e: OrganizationEntry): seq<Token> {
    match e
    case OrganizationCode(word) => [Tok("IDENT", "code"), Mark("="), WordToken(word)]
    case OrganizationName(word) => [Mark("name"), Mark("="), WordToken(word)]
  }

  function DomainTokens(e: DomainEntry): seq<Token> {
    (match e
     case Engine(word, _) => [Mark("engine"), Mark("="), WordToken(word)]
     case Capabilities(words, _) => [Mark("capabilities"), Mark("=")] + ListTokens(words)
     case DomainName(word, _) => [Mark("name"), Mark("="), WordToken(word)]
     case DomainEnabled(on, _) => [Mark("enabled"), Mark("="), FlagToken(on)])
    + Semi(e.semi)
  }

  function StepTokens(e: StepEntry): seq<Token> {
    (match e
     case Action(word, _) => [Mark("action"), Mark("="), WordToken(word)]
     case Approval(_) => [Mark("approval")])
    + Semi(e.semi)
  }

  /** A declaration with a body in braces. */
  function Braced(keyword: string, name: Label, body: seq<Token>): seq<Token> {
    [Mark(keyword), LabelToken(name), Mark("{")] + body + [Mark("}")]
  }

  function WorkflowTokens(e: WorkflowEntry): seq<Token> {
    match e
    case Trigger(word, semi) => [Mark("trigger"), Mark("="), WordToken(word)] + Semi(semi)
    case WorkflowName(word, semi) => [Mark("name"), Mark("="), WordToken(word)] + Semi(semi)
    case WorkflowEnabled(on, semi) => [Mark("enabled"), Mark("="), FlagToken(on)] + Semi(semi)
    case Step(name, entries) => Braced("step", name, Join(StepTokens, entries))
  }

  function ItemTokens(x: Item): seq<Token> {
    (match x
     case OrganizationItem(fields, _) => [Mark("organization")] + Join(OrganizationTokens, fields)
     case DomainItem(name, domain, _) => Braced("domain", name, Join(DomainTokens, domain))
     case WorkflowItem(name, workflow, _) => Braced("workflow", name, Join(WorkflowTokens, workflow))
     case PolicyItem(name, words, _) => [Mark("policy"), LabelToken(name), Mark("=")] + ListTokens(words)
     case MetadataItem(name, literal, _) =>
       [Mark("metadata"), LabelToken(name), Mark("="), LiteralToken(literal)])
    + Semi(x.semi)
  }

  function SourceTokens(c: Source): seq<Token> {
    [Mark("module"), LabelToken(c.name), Mark("version"), WordToken(c.version), Mark("{")]
    + Join(ItemTokens, c.items) + [Mark("}")]
  }

  // ---------------------------------------------------------------- the tree it stands for

  /** The value of the last part that has one. */
  function LastOf<E, V>(value: E -> Option<V>, parts: seq<E>): Option<V> {
    if parts == [] then None
    else
      var n := |parts| - 1;
      if value(parts[n]).Some? then value(parts[n]) else LastOf(value, parts[..n])
  }

  /** The values of the parts that have one, in order. */
  function AllOf<E, V>(value: E -> Option<V>, parts: seq<E>): seq<V> {
    if parts == [] then []
    else
      var n := |parts| - 1;
      AllOf(value, parts[..n]) + if value(parts[n]).Some? then [value(parts[n]).value] else []
  }

  function Or<V>(o: Option<V>, default: V): V { if o.Some? then o.value else default }

  function TextOf(w: Word): string { w.text }

  function CodeField(e: OrganizationEntry): Option<string> { if e.OrganizationCode? then Some(e.word.text) else None }

  function NameField(e: OrganizationEntry): Option<string> { if e.OrganizationName? then Some(e.word.text) else None }

  function EngineField(e: DomainEntry): Option<string> { if e.Engine? then Some(e.word.text) else None }

  function CapabilitiesField(e: DomainEntry): Option<seq<string>> {
    if e.Capabilities? then Some(MapSeq(TextOf, e.words)) else None
  }

  function DomainNameField(e: DomainEntry): Option<string> { if e.DomainName? then Some(e.word.text) else None }

  function DomainEnabledField(e: DomainEntry): Option<bool> { if e.DomainEnabled? then Some(e.on) else None }

  function ActionField(e: StepEntry): Option<string> { if e.Action? then Some(e.word.text) else None }

  function ApprovalField(e: StepEntry): Option<bool> { if e.Approval? then Some(true) else None }

  function TriggerField(e: WorkflowEntry): Option<string> { if e.Trigger? then Some(e.word.text) else None }

  function WorkflowNameField(e: WorkflowEntry): Option<string> { if e.WorkflowName? then Some(e.word.text) else None }

  function WorkflowEnabledField(e: WorkflowEntry): Option<bool> { if e.WorkflowEnabled? then Some(e.on) else None }

  function StepField(e: WorkflowEntry): Option<StepDecl> {
    if e.Step? then Some(StepTree(e.name, e.entries)) else None
  }

  function OrganizationTree(fields: seq<OrganizationEntry>): Organization {
    Organization(Or(LastOf(CodeField, fields), ""), Or(LastOf(NameField, fields), ""), NOWHERE)
  }

  function DomainTree(name: Label, entries: seq<DomainEntry>): Domain {
    Domain(name.text, Or(LastOf(EngineField, entries), ""), Or(LastOf(CapabilitiesField, entries), []),
           LastOf(DomainNameField, entries), Or(LastOf(DomainEnabledField, entries), true), NOWHERE)
  }

  function StepTree(name: Label, entries: seq<StepEntry>): StepDecl {
    StepDecl(name.text, Or(LastOf(ActionField, entries), ""), Or(LastOf(ApprovalField, entries), false), NOWHERE)
  }

  function WorkflowTree(name: Label, entries: seq<WorkflowEntry>): Workflow {
    Workflow(name.text, Or(LastOf(TriggerField, entries), ""), AllOf(StepField, entries),
             LastOf(WorkflowNameField, entries), Or(LastOf(WorkflowEnabledField, entries), true), NOWHERE)
  }

  function LiteralTree(x: Literal): Value {
    match x
    case Quoted(text) => Value("string", Text(text), NOWHERE)
    case Bare(text) => Value("identifier", Text(text), NOWHERE)
    case Number(text) => Value(if '.' in text then "decimal" else "integer", Text(text), NOWHERE)
    case Boolean(flag) => Value("boolean", Flag(flag), NOWHERE)
  }

  function OrganizationDecl(x: Item): Option<Organization> {
    if x.OrganizationItem? then Some(OrganizationTree(x.fields)) else None
  }

  function DomainDecl(x: Item): Option<Domain> {
    if x.DomainItem? then Some(DomainTree(x.name, x.domain)) else None
  }

  function WorkflowDecl(x: Item): Option<Workflow> {
    if x.WorkflowItem? then Some(WorkflowTree(x.name, x.workflow)) else None
  }

  function PolicyDecl(x: Item): Option<Policy> {
    if x.PolicyItem? then Some(Policy(x.name.text, MapSeq(TextOf, x.words), NOWHERE)) else None
  }

  function MetadataDecl(x: Item): Option<Metadata> {
    if x.MetadataItem? then Some(Metadata(x.name.text, LiteralTree(x.literal))) else None
  }

  /** The tree that a source stands for, without places. */
  function TreeOf(c: Source): Module {
    Module(c.name.text, c.version.text, Or(LastOf(OrganizationDecl, c.items), Organization("", "", NOWHERE)),
           AllOf(DomainDecl, c.items), AllOf(WorkflowDecl, c.items), AllOf(PolicyDecl, c.items),
           AllOf(MetadataDecl, c.items), NOWHERE)
  }

  // ---------------------------------------------------------------- when it stands for one

  const LABELS: set<string> := {"IDENT", "name", "engine", "capabilities", "enabled", "trigger", "action", "approval"}

  predicate LabelOk(n: Label) { n.kind in LABELS }

  predicate StepComplete(name: Label, entries: seq<StepEntry>) {
    LabelOk(name) && StepTree(name, entries).action != ""
  }

  predicate WorkflowComplete(name: Label, entries: seq<WorkflowEntry>) {
    && LabelOk(name) && WorkflowTree(name, entries).trigger != "" && WorkflowTree(name, entries).steps != []
    && forall e :: e in entries && e.Step? ==> StepComplete(e.name, e.entries)
  }

  predicate ItemComplete(x: Item) {
    match x
    case OrganizationItem(fields, _) => OrganizationTree(fields).code != "" && OrganizationTree(fields).name != ""
    case DomainItem(name, domain, _) => LabelOk(name) && LastOf(EngineField, domain).Some?
    case WorkflowItem(name, workflow, _) => WorkflowComplete(name, workflow)
    case PolicyItem(name, _, _) => LabelOk(name)
    case MetadataItem(name, _, _) => LabelOk(name)
  }

  /** An organization needs a semicolon before another one. */
  predicate Separated(x: Item, y: Item) { x.OrganizationItem? && y.OrganizationItem? ==> x.semi }

  predicate ItemsComplete(items: seq<Item>) {
    && (forall x :: x in items ==> ItemComplete(x))
    && forall i :: 0 <= i < |items| - 1 ==> Separated(items[i], items[i + 1])
  }

  /** Every part is complete, and there is an organization. */
  predicate Complete(c: Source) {
    LabelOk(c.name) && ItemsComplete(c.items) && LastOf(OrganizationDecl, c.items).Some?
  }
}
