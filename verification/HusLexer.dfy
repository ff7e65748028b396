/** The HUS lexer.

    Decoding a JSON string literal is a parameter: the value of the raw literal, or none when it is
    not valid. */
module HusLexer {
  import opened Outcomes

  datatype Token = Token(kind: string, value: string, start: nat, end: nat, line: nat, column: nat)

  datatype LexError = LexError(message: string, token: Token)

  type Decoder = string -> Option<string>

  const KEYWORDS: set<string> := {
    "module", "version", "organization", "domain", "engine", "capabilities", "name", "enabled",
    "workflow", "trigger", "step", "action", "approval", "policy", "metadata", "true", "false"
  }

  // ---------------------------------------------------------------- characters

  predicate IsSpace(c: char) {
    || '\t' <= c <= '\r' || '\U{1C}' <= c <= ' ' || c == '\U{85}' || c == '\U{A0}' || c == '\U{1680}'
    || '\U{2000}' <= c <= '\U{200A}' || c == '\U{2028}' || c == '\U{2029}' || c == '\U{202F}' || c == '\U{205F}'
    || c == '\U{3000}'
  }

  predicate IsDigit(c: char) { '0' <= c <= '9' }

  predicate IsIdentStart(c: char) { 'A' <= c <= 'Z' || 'a' <= c <= 'z' || c == '_' }

  predicate IsIdentPart(c: char) { IsIdentStart(c) || IsDigit(c) || c == '.' || c == '-' }

  predicate IsPunctuation(c: char) { c in "{}[]=,;:" }

  // ---------------------------------------------------------------- one piece of the remaining text

  /** What stands at the head of a text: a blank or comment, a token, or something that is neither. */
  datatype Piece = Gap(length: nat) | Lexeme(kind: string, value: string, length: nat)
    | Bad(message: string, kind: string, value: string, length: nat)

  /** The length of the current line, without its end. */
  function LineLength(t: string): (n: nat)
    ensures n <= |t|
  {
    if t == "" || t[0] == '\n' then 0 else 1 + LineLength(t[1..])
  }

  function Digits(t: string): (n: nat)
    ensures n <= |t|
  {
    if t != "" && IsDigit(t[0]) then 1 + Digits(t[1..]) else 0
  }

  function IdentTail(t: string): (n: nat)
    ensures n <= |t|
  {
    if t != "" && IsIdentPart(t[0]) then 1 + IdentTail(t[1..]) else 0
  }

  /** `(?:0|[1-9][0-9]*)` */
  function IntLength(t: string): (n: nat)
    ensures n <= |t|
  {
    if t == "" then 0 else if t[0] == '0' then 1 else if IsDigit(t[0]) then 1 + Digits(t[1..]) else 0
  }

  /** `(?:0|[1-9][0-9]*)(?:\.[0-9]+)?` */
  function NumberLength(t: string): (n: nat)
    ensures n <= |t|
  {
    var n := IntLength(t);
    if 0 < n && n + 1 < |t| && t[n] == '.' && IsDigit(t[n + 1]) then n + 1 + Digits(t[n + 1..]) else n
  }

  datatype Quoted = Closed(length: nat) | Broken(length: nat) | Unterminated

  function Longer(q: Quoted): Quoted {
    match q
    case Closed(n) => Closed(n + 1)
    case Broken(n) => Broken(n + 1)
    case Unterminated => Unterminated
  }

  /** The inside of a string literal, up to the quote that closes it or the line end that breaks it. */
  function Inside(t: string, escaped: bool): (q: Quoted)
    ensures q.Closed? || q.Broken? ==> q.length < |t|
  {
    if t == "" then Unterminated
    else if escaped then Longer(Inside(t[1..], false))
    else if t[0] == '\\' then Longer(Inside(t[1..], true))
    else if t[0] == '"' then Closed(0)
    else if t[0] == '\n' then Broken(0)
    else Longer(Inside(t[1..], false))
  }

  function StringPiece(t: string, decode: Decoder): (p: Piece)
    requires t != ""
    ensures p.length <= |t| && (p.Lexeme? ==> p.length > 0) && !p.Gap?
  {
    match Inside(t[1..], false)
    case Broken(n) => Bad("unterminated string", "STRING", "", n + 1)
    case Unterminated => Bad("unterminated string", "STRING", "", |t|)
    case Closed(n) =>
      var raw := t[..n + 2];
      var value := decode(raw);
      if value.None? then Bad("invalid string literal", "STRING", raw, n + 2) else Lexeme("STRING", value.value, n + 2)
  }

  predicate StartsComment(t: string)
    requires t != ""
  {
    t[0] == '#' || (t[0] == '/' && |t| > 1 && t[1] == '/')
  }

  function Scan(t: string, decode: Decoder): (p: Piece)
    requires t != ""
    ensures p.length <= |t| && (p.Lexeme? || p.Gap? ==> p.length > 0)
  {
    var c := t[0];
    if IsSpace(c) then Gap(1)
    else if StartsComment(t) then Gap(LineLength(t))
    else if IsPunctuation(c) then Lexeme([c], [c], 1)
    else if c == '"' then StringPiece(t, decode)
    else if NumberLength(t) > 0 then Lexeme("NUMBER", t[..NumberLength(t)], NumberLength(t))
    else if IsIdentStart(c) then
      var word := t[..1 + IdentTail(t[1..])];
      Lexeme(if word in KEYWORDS then word else "IDENT", word, |word|)
    else Bad("unexpected character: " + [c], "INVALID", [c], 1)
  }

  // ---------------------------------------------------------------- positions

  function Newlines(text: string): nat {
    if text == "" then 0 else Newlines(text[..|text| - 1]) + if text[|text| - 1] == '\n' then 1 else 0
  }

  /** The number of characters after the last line end. */
  function Tail(text: string): nat {
    if text == "" || text[|text| - 1] == '\n' then 0 else 1 + Tail(text[..|text| - 1])
  }

  function LineAfter(text: string, line: nat): nat { line + Newlines(text) }

  function ColumnAfter(text: string, column: nat): nat {
    if '\n' in text then Tail(text) + 1 else column + |text|
  }

  // ---------------------------------------------------------------- the token sequence

  function Prepend(tokens: seq<Token>, r: Result<seq<Token>, LexError>): Result<seq<Token>, LexError> {
    match r
    case Ok(rest) => Ok(tokens + rest)
    case Err(e) => Err(e)
  }

  /** The tokens of what remains of a source at the given position. */
  function LexFrom(t: string, i: nat, line: nat, column: nat, decode: Decoder): Result<seq<Token>, LexError>
    decreases |t|
  {
    if t == "" then Ok([Token("EOF", "", i, i, line, column)])
    else
      match Scan(t, decode)
      case Gap(n) => LexFrom(t[n..], i + n, LineAfter(t[..n], line), ColumnAfter(t[..n], column), decode)
      case Lexeme(kind, value, n) =>
        Prepend([Token(kind, value, i, i + n, line, column)],
                LexFrom(t[n..], i + n, LineAfter(t[..n], line), ColumnAfter(t[..n], column), decode))
      case Bad(message, kind, value, n) => Err(LexError(message, Token(kind, value, i, i + n, line, column)))
  }

  function Lex(source: string, decode: Decoder): Result<seq<Token>, LexError> { LexFrom(source, 0, 1, 1, decode) }

  // ---------------------------------------------------------------- where tokens are

  function LineOf(source: string, i: nat): nat
    requires i <= |source|
  {
    1 + Newlines(source[..i])
  }

  function ColumnOf(source: string, i: nat): nat
    requires i <= |source|
  {
    1 + Tail(source[..i])
  }

  lemma {:induction false} NewlinesConcat(a: string, b: string)
    ensures Newlines(a + b) == Newlines(a) + Newlines(b)
  {
    if b == "" {
      assert a + b == a;
    } else {
      NewlinesConcat(a, b[..|b| - 1]);
      assert (a + b)[..|a + b| - 1] == a + b[..|b| - 1];
    }
  }

  lemma {:induction false} TailConcat(a: string, b: string)
    ensures Tail(a + b) == if '\n' in b then Tail(b) else Tail(a) + |b|
  {
    if b == "" {
      assert a + b == a;
    } else {
      var n := |b| - 1;
      TailConcat(a, b[..n]);
      assert (a + b)[..|a + b| - 1] == a + b[..n];
      assert b == b[..n] + [b[n]];
    }
  }

  /** Advancing keeps line and column true to the position. */
  lemma AdvanceIsTrue(source: string, i: nat, n: nat)
    requires i + n <= |source|
    ensures LineAfter(source[i..i + n], LineOf(source, i)) == LineOf(source, i + n)
    ensures ColumnAfter(source[i..i + n], ColumnOf(source, i)) == ColumnOf(source, i + n)
  {
    assert source[..i + n] == source[..i] + source[i..i + n];
    NewlinesConcat(source[..i], source[i..i + n]);
    TailConcat(source[..i], source[i..i + n]);
  }

  /** Blanks and comments only. A comment runs to the end of its line, which only the end of the source
      can replace. */
  predicate Blank(g: string, final: bool)
    decreases |g|
  {
    g == ""
    || (IsSpace(g[0]) && Blank(g[1..], final))
    || (StartsComment(g) && 0 < LineLength(g) && (LineLength(g) < |g| || final) && Blank(g[LineLength(g)..], final))
  }

  /** The token is what stands at its start, and its position is true. */
  predicate TokenAt(source: string, t: Token, decode: Decoder) {
    && t.start < t.end <= |source|
    && Scan(source[t.start..], decode) == Lexeme(t.kind, t.value, t.end - t.start)
    && t.line == LineOf(source, t.start) && t.column == ColumnOf(source, t.start)
  }

  /** Tokens from position i on: in order, apart, with only blanks and comments before, between and
      after them, and closed by the end of the source. */
  predicate Tokenizes(source: string, i: nat, tokens: seq<Token>, decode: Decoder)
    requires i <= |source|
    decreases |tokens|
  {
    && tokens != []
    && i <= tokens[0].start <= |source| && Blank(source[i..tokens[0].start], |tokens| == 1)
    && if |tokens| == 1 then
         tokens[0] == Token("EOF", "", |source|, |source|, LineOf(source, |source|), ColumnOf(source, |source|))
       else
         TokenAt(source, tokens[0], decode) && Tokenizes(source, tokens[0].end, tokens[1..], decode)
  }

  lemma {:induction false} LineLengthOfPrefix(t: string, m: nat)
    requires LineLength(t) <= m <= |t|
    ensures LineLength(t[..m]) == LineLength(t)
  {
    if t != "" && t[0] != '\n' {
      assert t[..m][1..] == t[1..][..m - 1];
      LineLengthOfPrefix(t[1..], m - 1);
    }
  }

  lemma GapThenBlank(t: string, n: nat, m: nat, final: bool, decode: Decoder)
    requires t != "" && Scan(t, decode) == Gap(n) && n <= m <= |t| && Blank(t[n..m], final)
    requires n == m ==> final || IsSpace(t[0])
    ensures Blank(t[..m], final)
  {
    assert t[..m][n..] == t[n..m];
    if !IsSpace(t[0]) {
      LineLengthOfPrefix(t, m);
      if t[0] == '/' { SlashLine(t); }
    }
  }

  lemma SlashLine(t: string)
    requires t != "" && t[0] == '/' && StartsComment(t)
    ensures LineLength(t) >= 2
  {
    assert t[1..] != "" && t[1..][0] == '/';
  }

  /** No token starts where a comment ends. */
  lemma CommentEnds(t: string, decode: Decoder)
    requires t != "" && !IsSpace(t[0]) && Scan(t, decode).Gap? && Scan(t, decode).length < |t|
    ensures Scan(t[Scan(t, decode).length..], decode).Gap?
  {
    LineStops(t);
  }

  lemma {:induction false} LineStops(t: string)
    ensures LineLength(t) < |t| ==> t[LineLength(t)] == '\n'
  {
    if t != "" && t[0] != '\n' { LineStops(t[1..]); }
  }

  lemma GapBefore(source: string, i: nat, n: nat, tokens: seq<Token>, decode: Decoder)
    requires i < |source| && Scan(source[i..], decode) == Gap(n) && i + n <= |source|
    requires Tokenizes(source, i + n, tokens, decode)
    ensures Tokenizes(source, i, tokens, decode)
  {
    hide Scan, Blank, LineOf, ColumnOf, IsSpace;
    var t, m := source[i..], tokens[0].start - i;
    assert t[n..m] == source[i + n..tokens[0].start] && t[..m] == source[i..tokens[0].start];
    if n == m && |tokens| > 1 && !IsSpace(t[0]) {
      assert t[n..] == source[tokens[0].start..];
      CommentEnds(t, decode);
    }
    hide TokenAt;
    GapThenBlank(t, n, m, |tokens| == 1, decode);
  }

  lemma TokenBefore(source: string, i: nat, first: Token, tokens: seq<Token>, decode: Decoder)
    requires i <= |source| && first.start == i && TokenAt(source, first, decode)
    requires Tokenizes(source, first.end, tokens, decode)
    ensures Tokenizes(source, i, [first] + tokens, decode)
  {
    hide Scan, TokenAt;
    assert ([first] + tokens)[1..] == tokens;
    assert source[i..i] == "";
  }

  /** The tokens of a source from a position on. */
  function LexAt(source: string, i: nat, decode: Decoder): Result<seq<Token>, LexError>
    requires i <= |source|
  {
    LexFrom(source[i..], i, LineOf(source, i), ColumnOf(source, i), decode)
  }

  lemma LexOnce(t: string, i: nat, line: nat, column: nat, decode: Decoder)
    requires t != ""
    ensures LexFrom(t, i, line, column, decode) ==
      var p := Scan(t, decode);
      match p
      case Gap(n) => LexFrom(t[n..], i + n, LineAfter(t[..n], line), ColumnAfter(t[..n], column), decode)
      case Lexeme(kind, value, n) =>
        Prepend([Token(kind, value, i, i + n, line, column)],
                LexFrom(t[n..], i + n, LineAfter(t[..n], line), ColumnAfter(t[..n], column), decode))
      case Bad(message, kind, value, n) => Err(LexError(message, Token(kind, value, i, i + n, line, column)))
  {
    hide Scan, LineAfter, ColumnAfter, Prepend;
  }

  lemma LexAtMeans(source: string, i: nat, decode: Decoder)
    requires i <= |source|
    ensures LexAt(source, i, decode) == LexFrom(source[i..], i, LineOf(source, i), ColumnOf(source, i), decode)
  {
  }

  lemma LexStep(source: string, i: nat, decode: Decoder)
    requires i < |source|
    ensures var p := Scan(source[i..], decode);
            LexAt(source, i, decode) ==
              match p
              case Gap(n) => LexAt(source, i + n, decode)
              case Lexeme(kind, value, n) =>
                Prepend([Token(kind, value, i, i + n, LineOf(source, i), ColumnOf(source, i))],
                        LexAt(source, i + n, decode))
              case Bad(message, kind, value, n) =>
                Err(LexError(message, Token(kind, value, i, i + n, LineOf(source, i), ColumnOf(source, i))))
  {
    hide *;
    var t, n := source[i..], Scan(source[i..], decode).length;
    LexOnce(t, i, LineOf(source, i), ColumnOf(source, i), decode);
    LexAtMeans(source, i, decode);
    LexAtMeans(source, i + n, decode);
    assert t[..n] == source[i..i + n] && t[n..] == source[i + n..];
    AdvanceIsTrue(source, i, n);
  }

  lemma AtTheEnd(source: string, decode: Decoder)
    ensures LexAt(source, |source|, decode).Ok?
    ensures Tokenizes(source, |source|, LexAt(source, |source|, decode).value, decode)
  {
    hide Scan, LineOf, ColumnOf;
    assert source[|source|..|source|] == "";
  }

  lemma TokenHere(source: string, i: nat, decode: Decoder)
    requires i < |source| && Scan(source[i..], decode).Lexeme?
    ensures var p := Scan(source[i..], decode);
            TokenAt(source, Token(p.kind, p.value, i, i + p.length, LineOf(source, i), ColumnOf(source, i)), decode)
  {
    var p := Scan(source[i..], decode);
    hide Scan, LineOf, ColumnOf;
  }

  /** Main result: an accepted source is tokenized, from its first to its last character. */
  lemma {:induction false} LexTokenizes(source: string, i: nat, decode: Decoder)
    requires i <= |source| && LexAt(source, i, decode).Ok?
    ensures Tokenizes(source, i, LexAt(source, i, decode).value, decode)
    decreases |source| - i
  {
    hide Scan, Tokenizes, LexAt, LineOf, ColumnOf, TokenAt;
    if i == |source| {
      AtTheEnd(source, decode);
    } else {
      var p := Scan(source[i..], decode);
      LexStep(source, i, decode);
      if p.Lexeme? {
        LexTokenizes(source, i + p.length, decode);
        TokenHere(source, i, decode);
        TokenBefore(source, i, Token(p.kind, p.value, i, i + p.length, LineOf(source, i), ColumnOf(source, i)),
                    LexAt(source, i + p.length, decode).value, decode);
      } else {
        LexTokenizes(source, i + p.length, decode);
        GapBefore(source, i, p.length, LexAt(source, i + p.length, decode).value, decode);
      }
    }
  }

  /** A blank starts with a gap that the lexer skips, and goes on blank. */
  lemma BlankStarts(t: string, m: nat, final: bool, decode: Decoder)
    requires 0 < m <= |t| && Blank(t[..m], final) && (final ==> m == |t|)
    ensures var p := Scan(t, decode);
            p.Gap? && p.length <= m && Blank(t[p.length..m], final)
  {
    var g := t[..m];
    if IsSpace(g[0]) && Blank(g[1..], final) {
      assert g[1..] == t[1..m];
    } else {
      var n := LineLength(g);
      assert g[n..] == t[n..m];
      assert t[..m] + t[m..] == t;
      LineLengthExtends(g, t[m..]);
    }
  }

  lemma {:induction false} LineLengthExtends(g: string, u: string)
    requires LineLength(g) < |g| || u == ""
    ensures LineLength(g + u) == LineLength(g)
  {
    if u == "" {
      assert g + u == g;
    } else if g[0] != '\n' {
      assert (g + u)[1..] == g[1..] + u;
      LineLengthExtends(g[1..], u);
    }
  }

  /** And back: whatever tokenizes a source is what the lexer returns for it. */
  lemma {:induction false} TokenizationIsLex(source: string, i: nat, tokens: seq<Token>, decode: Decoder)
    requires i <= |source| && Tokenizes(source, i, tokens, decode)
    ensures LexAt(source, i, decode) == Ok(tokens)
    decreases |source| - i
  {
    hide Scan, Blank, LexAt, LineOf, ColumnOf;
    var m := tokens[0].start - i;
    if m > 0 {
      var t := source[i..];
      assert t[..m] == source[i..tokens[0].start];
      BlankStarts(t, m, |tokens| == 1, decode);
      var n := Scan(t, decode).length;
      assert t[n..m] == source[i + n..tokens[0].start];
      LexStep(source, i, decode);
      TokenizationIsLex(source, i + n, tokens, decode);
    } else if |tokens| == 1 {
      LexEndAt(source, decode);
      assert tokens == [tokens[0]];
    } else {
      LexStep(source, i, decode);
      TokenizationIsLex(source, tokens[0].end, tokens[1..], decode);
      assert tokens == [tokens[0]] + tokens[1..];
    }
  }

  lemma LexEndAt(source: string, decode: Decoder)
    ensures LexAt(source, |source|, decode)
            == Ok([Token("EOF", "", |source|, |source|, LineOf(source, |source|), ColumnOf(source, |source|))])
  {
    hide LineOf, ColumnOf;
  }

  // ---------------------------------------------------------------- writing the tokens back

  /** Every lexeme followed by one space. */
  function Render(source: string, tokens: seq<Token>): string {
    if |tokens| <= 1 then ""
    else
      var t := tokens[0];
      (if t.start <= t.end <= |source| then source[t.start..t.end] else "") + " " + Render(source, tokens[1..])
  }

  predicate SameTokens(a: seq<Token>, b: seq<Token>) {
    |a| == |b| && forall k :: 0 <= k < |a| ==> a[k].kind == b[k].kind && a[k].value == b[k].value
  }

  lemma {:induction false} DigitsKeep(t: string, m: nat, u: string)
    requires Digits(t) <= m <= |t| && (Digits(t) == m && u != "" ==> !IsDigit(u[0]))
    ensures Digits(t[..m] + u) == Digits(t)
  {
    if t != "" && IsDigit(t[0]) {
      assert (t[..m] + u)[1..] == t[1..][..m - 1] + u;
      DigitsKeep(t[1..], m - 1, u);
    } else if m == 0 {
      assert t[..m] + u == u;
    }
  }

  lemma {:induction false} IdentTailKeeps(t: string, m: nat, u: string)
    requires IdentTail(t) <= m <= |t| && (IdentTail(t) == m && u != "" ==> !IsIdentPart(u[0]))
    ensures IdentTail(t[..m] + u) == IdentTail(t)
  {
    if t != "" && IsIdentPart(t[0]) {
      assert (t[..m] + u)[1..] == t[1..][..m - 1] + u;
      IdentTailKeeps(t[1..], m - 1, u);
    } else if m == 0 {
      assert t[..m] + u == u;
    }
  }

  lemma {:induction false} InsideKeeps(t: string, escaped: bool, u: string)
    requires Inside(t, escaped).Closed?
    ensures Inside(t[..Inside(t, escaped).length + 1] + u, escaped) == Inside(t, escaped)
  {
    var m := Inside(t, escaped).length + 1;
    if escaped || t[0] != '"' {
      var next := !escaped && t[0] == '\\';
      assert (t[..m] + u)[1..] == t[1..][..m - 1] + u;
      InsideKeeps(t[1..], next, u);
    }
  }

  lemma IntKeeps(t: string, m: nat, u: string)
    requires 0 < IntLength(t) <= m <= |t| && (IntLength(t) == m && u != "" ==> !IsDigit(u[0]))
    ensures IntLength(t[..m] + u) == IntLength(t)
  {
    if t[0] != '0' {
      assert (t[..m] + u)[1..] == t[1..][..m - 1] + u;
      DigitsKeep(t[1..], m - 1, u);
    }
  }

  lemma NumberKeeps(t: string, u: string)
    requires NumberLength(t) > 0 && (u != "" ==> !IsDigit(u[0]) && u[0] != '.')
    ensures NumberLength(t[..NumberLength(t)] + u) == NumberLength(t)
  {
    var n, m := IntLength(t), NumberLength(t);
    var x := t[..m] + u;
    IntKeeps(t, m, u);
    if m > n {
      assert x[n + 1..] == t[n + 1..][..m - n - 1] + u;
      DigitsKeep(t[n + 1..], m - n - 1, u);
    }
  }

  lemma StringKeeps(t: string, u: string, decode: Decoder)
    requires t != "" && StringPiece(t, decode).Lexeme?
    ensures t[..StringPiece(t, decode).length] + u != ""
    ensures StringPiece(t[..StringPiece(t, decode).length] + u, decode) == StringPiece(t, decode)
  {
    var n := StringPiece(t, decode).length;
    var x := t[..n] + u;
    assert x[1..] == t[1..][..n - 1] + u;
    InsideKeeps(t[1..], false, u);
    assert x[..n] == t[..n];
  }

  /** A lexeme is recognized again wherever a space follows it. */
  lemma LexemeKeeps(t: string, u: string, decode: Decoder)
    requires t != "" && Scan(t, decode).Lexeme? && u != "" && u[0] == ' '
    ensures t[..Scan(t, decode).length] + u != "" && Scan(t[..Scan(t, decode).length] + u, decode) == Scan(t, decode)
  {
    var c, n := t[0], Scan(t, decode).length;
    var x := t[..n] + u;
    assert x[0] == c && x[..n] == t[..n];
    if IsPunctuation(c) {
    } else if c == '"' {
      StringKeeps(t, u, decode);
    } else if NumberLength(t) > 0 {
      NumberKeeps(t, u);
    } else {
      assert x[1..] == t[1..][..n - 1] + u;
      IdentTailKeeps(t[1..], n - 1, u);
    }
  }

  /** Lexing a lexeme and a space, then the rest. */
  lemma LexHead(x: string, rest: string, kind: string, value: string, j: nat, line: nat, column: nat, decode: Decoder)
    requires x != "" && Scan(x + " " + rest, decode) == Lexeme(kind, value, |x|)
    ensures LexFrom(x + " " + rest, j, line, column, decode)
         == Prepend([Token(kind, value, j, j + |x|, line, column)],
                    LexFrom(rest, j + |x| + 1, LineAfter(" ", LineAfter(x, line)),
                            ColumnAfter(" ", ColumnAfter(x, column)), decode))
  {
    var text := x + " " + rest;
    hide Scan, LineAfter, ColumnAfter;
    assert text[..|x|] == x && text[|x|..] == " " + rest;
    SpaceSkipped(rest, j + |x|, LineAfter(x, line), ColumnAfter(x, column), decode);
  }

  lemma RenderUnfold(source: string, tokens: seq<Token>)
    ensures |tokens| == 1 ==> Render(source, tokens) == ""
    ensures |tokens| > 1 && tokens[0].start <= tokens[0].end <= |source| ==>
              Render(source, tokens) == source[tokens[0].start..tokens[0].end] + " " + Render(source, tokens[1..])
  {
  }

  lemma TokenizesUnfold(source: string, i: nat, tokens: seq<Token>, decode: Decoder)
    requires i <= |source| && Tokenizes(source, i, tokens, decode)
    ensures tokens != []
    ensures |tokens| == 1 ==> tokens[0].kind == "EOF" && tokens[0].value == ""
    ensures |tokens| > 1 ==> TokenAt(source, tokens[0], decode) && tokens[0].start < tokens[0].end <= |source|
                             && Tokenizes(source, tokens[0].end, tokens[1..], decode)
  {
    hide Blank, LineOf, ColumnOf, Scan;
  }

  /** The first lexeme of what is written back is the first token. */
  lemma RenderHead(source: string, first: Token, rest: string, decode: Decoder)
    requires TokenAt(source, first, decode)
    ensures Scan(source[first.start..first.end] + " " + rest, decode)
            == Lexeme(first.kind, first.value, first.end - first.start)
  {
    hide LineOf, ColumnOf, Scan;
    var t, n, u := source[first.start..], first.end - first.start, " " + rest;
    LexemeKeeps(t, u, decode);
    assert t[..n] == source[first.start..first.end];
    assert t[..n] + u == t[..n] + " " + rest;
  }

  lemma LexEnd(j: nat, line: nat, column: nat, decode: Decoder)
    ensures LexFrom("", j, line, column, decode) == Ok([Token("EOF", "", j, j, line, column)])
  {
  }

  lemma PrependOk(t: Token, r: Result<seq<Token>, LexError>)
    requires r.Ok?
    ensures Prepend([t], r) == Ok([t] + r.value)
  {
  }

  lemma SameEof(tokens: seq<Token>, eof: Token)
    requires |tokens| == 1 && tokens[0].kind == eof.kind && tokens[0].value == eof.value
    ensures SameTokens(tokens, [eof])
  {
  }

  /** Main result: writing every lexeme followed by one space gives a source with the same tokens, up to
      their positions. */
  lemma {:induction false} RenderKeepsTokens(source: string, i: nat, tokens: seq<Token>, j: nat, line: nat,
                                             column: nat, decode: Decoder)
    requires i <= |source| && Tokenizes(source, i, tokens, decode)
    ensures var again := LexFrom(Render(source, tokens), j, line, column, decode);
            again.Ok? && SameTokens(tokens, again.value)
    decreases |tokens|
  {
    hide *;
    TokenizesUnfold(source, i, tokens, decode);
    RenderUnfold(source, tokens);
    if |tokens| == 1 {
      LexEnd(j, line, column, decode);
      SameEof(tokens, Token("EOF", "", j, j, line, column));
    } else {
      var first := tokens[0];
      var x, rest := source[first.start..first.end], Render(source, tokens[1..]);
      RenderHead(source, first, rest, decode);
      var line', column' := LineAfter(" ", LineAfter(x, line)), ColumnAfter(" ", ColumnAfter(x, column));
      LexHead(x, rest, first.kind, first.value, j, line, column, decode);
      RenderKeepsTokens(source, first.end, tokens[1..], j + |x| + 1, line', column', decode);
      var again := LexFrom(rest, j + |x| + 1, line', column', decode);
      PrependOk(Token(first.kind, first.value, j, j + |x|, line, column), again);
      SameTokensCons(first, tokens, Token(first.kind, first.value, j, j + |x|, line, column), again.value);
    }
  }

  lemma SameTokensCons(first: Token, tokens: seq<Token>, again: Token, rest: seq<Token>)
    requires tokens != [] && tokens[0] == first && first.kind == again.kind && first.value == again.value
    requires SameTokens(tokens[1..], rest)
    ensures SameTokens(tokens, [again] + rest)
  {
    forall k | 0 <= k < |tokens|
      ensures tokens[k].kind == ([again] + rest)[k].kind && tokens[k].value == ([again] + rest)[k].value
    {
      if k > 0 { assert tokens[k] == tokens[1..][k - 1]; }
    }
  }

  lemma SpaceSkipped(rest: string, j: nat, line: nat, column: nat, decode: Decoder)
    ensures LexFrom(" " + rest, j, line, column, decode)
         == LexFrom(rest, j + 1, LineAfter(" ", line), ColumnAfter(" ", column), decode)
  {
    assert (" " + rest)[..1] == " " && (" " + rest)[1..] == rest;
  }

  // ---------------------------------------------------------------- the lexer as it runs

  lemma LexIsLexAt(source: string, decode: Decoder)
    ensures Lex(source, decode) == Prepend([], LexAt(source, 0, decode))
    ensures LineOf(source, 0) == 1 && ColumnOf(source, 0) == 1
  {
    assert source[..0] == "" && source[0..] == source;
    var r := LexAt(source, 0, decode);
    if r.Ok? { assert [] + r.value == r.value; }
  }

  /** One token more in front. */
  lemma PrependMore(tokens: seq<Token>, t: Token, r: Result<seq<Token>, LexError>)
    ensures Prepend(tokens, Prepend([t], r)) == Prepend(tokens + [t], r)
  {
    if r.Ok? { assert tokens + ([t] + r.value) == tokens + [t] + r.value; }
  }

  lemma LexAtEnd(source: string, tokens: seq<Token>, decode: Decoder)
    ensures var eof := Token("EOF", "", |source|, |source|, LineOf(source, |source|), ColumnOf(source, |source|));
            Prepend(tokens, LexAt(source, |source|, decode)) == Ok(tokens + [eof])
  {
    hide LineOf, ColumnOf;
  }

  function Shift(k: nat, q: Quoted): Quoted {
    match q
    case Closed(n) => Closed(n + k)
    case Broken(n) => Broken(n + k)
    case Unterminated => Unterminated
  }

  class Lexer {
    const source: string
    const decode: Decoder
    var i: nat
    var line: nat
    var col: nat

    constructor (source: string, decode: Decoder)
      ensures this.source == source && this.decode == decode && Valid() && i == 0
    {
      this.source, this.decode, i, line, col := source, decode, 0, 1, 1;
      new;
      LexIsLexAt(source, decode);
    }

    /** The counters are true to the position. */
    ghost predicate Valid()
      reads this
    {
      i <= |source| && line == LineOf(source, i) && col == ColumnOf(source, i)
    }

    method Advance(length: nat)
      requires Valid() && i + length <= |source|
      modifies this
      ensures Valid() && i == old(i) + length
    {
      hide LineOf, ColumnOf;
      AdvanceIsTrue(source, i, length);
      var text := source[i..i + length];
      line := line + Newlines(text);
      if '\n' in text { col := Tail(text) + 1; } else { col := col + length; }
      i := i + length;
    }

    /** To the end of the line, or of the source. */
    method LineEnd() returns (n: nat)
      requires i <= |source|
      ensures n == LineLength(source[i..])
    {
      var j := i;
      while j < |source| && source[j] != '\n'
        invariant i <= j <= |source| && LineLength(source[i..]) == j - i + LineLength(source[j..])
      {
        assert source[j..][1..] == source[j + 1..];
        j := j + 1;
      }
      n := j - i;
    }

    /** The string literal at the position: the loop over its characters. */
    method StringLiteral() returns (p: Piece)
      requires i < |source| && source[i] == '"'
      ensures p == StringPiece(source[i..], decode)
    {
      var j, escaped := i + 1, false;
      assert source[i..][1..] == source[j..];
      while j < |source|
        invariant i < j <= |source|
        invariant Inside(source[i + 1..], false) == Shift(j - (i + 1), Inside(source[j..], escaped))
      {
        assert source[j..][1..] == source[j + 1..] && source[j..][0] == source[j];
        if escaped { escaped := false; }
        else if source[j] == '\\' { escaped := true; }
        else if source[j] == '"' { break; }
        else if source[j] == '\n' { return Bad("unterminated string", "STRING", "", j - i); }
        j := j + 1;
      }
      if j >= |source| { return Bad("unterminated string", "STRING", "", |source| - i); }
      var raw := source[i..j + 1];
      assert raw == source[i..][..j + 1 - i];
      var value := decode(raw);
      if value.None? { return Bad("invalid string literal", "STRING", raw, |raw|); }
      p := Lexeme("STRING", value.value, |raw|);
    }

    /** What stands at the position. */
    method Next() returns (p: Piece)
      requires i < |source|
      ensures p == Scan(source[i..], decode)
    {
      hide StringPiece, Digits, IdentTail;
      var c, rest := source[i], source[i..];
      assert rest[0] == c;
      if IsSpace(c) { return Gap(1); }
      if c == '#' || (c == '/' && i + 1 < |source| && source[i + 1] == '/') {
        var n := LineEnd();
        return Gap(n);
      }
      if IsPunctuation(c) { return Lexeme([c], [c], 1); }
      if c == '"' { p := StringLiteral(); return; }
      var n := NumberLength(rest);
      if n > 0 { return Lexeme("NUMBER", rest[..n], n); }
      if IsIdentStart(c) {
        var word := rest[..1 + IdentTail(rest[1..])];
        return Lexeme(if word in KEYWORDS then word else "IDENT", word, |word|);
      }
      p := Bad("unexpected character: " + [c], "INVALID", [c], 1);
    }

    /** `tokens`: to the end of the source, or to the first error. */
    method Tokens() returns (r: Result<seq<Token>, LexError>)
      requires Valid() && i == 0
      modifies this
      ensures r == Lex(source, decode)
    {
      hide Scan, Lex, LexAt, LexFrom, LineOf, ColumnOf;
      var tokens: seq<Token> := [];
      LexIsLexAt(source, decode);
      while i < |source|
        invariant Valid()
        invariant Lex(source, decode) == Prepend(tokens, LexAt(source, i, decode))
        decreases |source| - i
      {
        LexStep(source, i, decode);
        var start, startLine, startCol := i, line, col;
        var p := Next();
        match p {
          case Gap(n) =>
            Advance(n);
          case Lexeme(kind, value, n) =>
            Advance(n);
            var token := Token(kind, value, start, i, startLine, startCol);
            PrependMore(tokens, token, LexAt(source, i, decode));
            tokens := tokens + [token];
          case Bad(message, kind, value, n) =>
            return Err(LexError(message, Token(kind, value, start, start + n, startLine, startCol)));
        }
      }
      LexAtEnd(source, tokens, decode);
      r := Ok(tokens + [Token("EOF", "", i, i, line, col)]);
    }
  }
}
