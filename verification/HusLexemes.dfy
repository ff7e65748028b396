/** How tokens are spelled, apart from the scanner: the lexeme at the head of a text is its longest spelling of a token,
    and tokens that are spelled out and set apart are read back. */
module HusLexemes {
  import opened HusLexer
  import opened Outcomes

  // ---------------------------------------------------------------- spellings

  predicate AllDigits(x: string) { forall k :: 0 <= k < |x| ==> IsDigit(x[k]) }

  /** No leading zeros. */
  predicate Whole(x: string) { x == "0" || (x != "" && AllDigits(x) && x[0] != '0') }

  /** A whole number with digits after a point at k. */
  predicate PointAt(x: string, k: nat) {
    k + 1 < |x| && x[k] == '.' && Whole(x[..k]) && AllDigits(x[k + 1..])
  }

  ghost predicate Numeral(x: string) { Whole(x) || exists k: nat :: PointAt(x, k) }

  predicate Name(x: string) { x != "" && IsIdentStart(x[0]) && forall k :: 0 <= k < |x| ==> IsIdentPart(x[k]) }

  predicate Reserved(x: string) {
    || x == "module" || x == "version" || x == "organization" || x == "domain" || x == "engine" || x == "capabilities"
    || x == "name" || x == "enabled" || x == "workflow" || x == "trigger" || x == "step" || x == "action"
    || x == "approval" || x == "policy" || x == "metadata" || x == "true" || x == "false"
  }

  /** The inside of a string: a backslash with what follows it, or anything but a quote and a line end. */
  predicate Units(x: string) {
    || x == ""
    || (x[0] == '\\' && |x| > 1 && Units(x[2..]))
    || (x[0] != '\\' && x[0] != '"' && x[0] != '\n' && Units(x[1..]))
  }

  predicate Quotation(x: string) { |x| >= 2 && x[0] == '"' && x[|x| - 1] == '"' && Units(x[1..|x| - 1]) }

  /** The text is a spelling of the token. */
  ghost predicate Spelled(kind: string, value: string, x: string, decode: Decoder) {
    || (|x| == 1 && IsPunctuation(x[0]) && kind == x && value == x)
    || (Numeral(x) && kind == "NUMBER" && value == x)
    || (Name(x) && kind == (if Reserved(x) then x else "IDENT") && value == x)
    || (Quotation(x) && kind == "STRING" && decode(x) == Some(value))
  }

  ghost predicate Spelling(x: string, decode: Decoder) { exists kind, value :: Spelled(kind, value, x, decode) }

  // ---------------------------------------------------------------- the longest spelling of each sort

  lemma {:induction false} DigitsStop(t: string)
    ensures AllDigits(t[..Digits(t)]) && (Digits(t) < |t| ==> !IsDigit(t[Digits(t)]))
  {
    if t != "" && IsDigit(t[0]) {
      DigitsStop(t[1..]);
      assert t[..Digits(t)] == [t[0]] + t[1..][..Digits(t[1..])];
    }
  }

  lemma IntStops(t: string)
    ensures var n := IntLength(t);
            && (n > 0 ==> Whole(t[..n])) && (n > 0 && t[0] != '0' && n < |t| ==> !IsDigit(t[n]))
            && (n == 0 && t != "" ==> !IsDigit(t[0]))
  {
    if t != "" && IsDigit(t[0]) && t[0] != '0' {
      DigitsStop(t[1..]);
      assert t[..IntLength(t)] == [t[0]] + t[1..][..Digits(t[1..])];
    }
  }

  lemma DigitsAt(t: string, i: nat, j: nat)
    requires i <= j <= |t| && AllDigits(t[i..j])
    ensures forall k :: i <= k < j ==> IsDigit(t[k])
  {
    forall k | i <= k < j ensures IsDigit(t[k]) { assert t[i..j][k - i] == t[k]; }
  }

  lemma WholeWithin(t: string, m: nat)
    requires 0 < m <= |t| && Whole(t[..m])
    ensures m <= IntLength(t) && t[0] == t[..m][0] && IsDigit(t[0])
  {
    IntStops(t);
    var n := IntLength(t);
    assert t[..m] == t[0..m];
    DigitsAt(t, 0, m);
  }

  lemma NumberIs(t: string)
    requires NumberLength(t) > 0
    ensures Numeral(t[..NumberLength(t)]) && IsDigit(t[0])
  {
    var n, m := IntLength(t), NumberLength(t);
    IntStops(t);
    if m > n {
      DigitsStop(t[n + 1..]);
      var x := t[..m];
      assert x[..n] == t[..n] && x[n + 1..] == t[n + 1..][..m - n - 1];
      assert PointAt(x, n);
    }
  }

  lemma NumberWithin(t: string, m: nat)
    requires 0 < m <= |t| && Numeral(t[..m])
    ensures m <= NumberLength(t) && IsDigit(t[0])
  {
    var x := t[..m];
    if Whole(x) {
      WholeWithin(t, m);
    } else {
      var k: nat :| PointAt(x, k);
      assert k > 0 && x[..k] == t[..k] && t[k] == '.';
      WholeWithin(t, k);
      IntStops(t);
      var n, rest := IntLength(t), t[IntLength(t) + 1..];
      assert t[..n] == t[0..n];
      DigitsAt(t, 0, n);
      assert k == n;
      DigitsStop(rest);
      assert x[n + 1..] == rest[0..m - n - 1] == t[n + 1..m];
      DigitsAt(rest, 0, m - n - 1);
      DigitsAt(t, n + 1, m);
    }
  }

  lemma {:induction false} TailStops(t: string)
    ensures forall k :: 0 <= k < IdentTail(t) ==> IsIdentPart(t[k])
    ensures IdentTail(t) < |t| ==> !IsIdentPart(t[IdentTail(t)])
  {
    if t != "" && IsIdentPart(t[0]) { TailStops(t[1..]); }
  }

  lemma NameIs(t: string)
    requires t != "" && IsIdentStart(t[0])
    ensures var n := 1 + IdentTail(t[1..]);
            n <= |t| && Name(t[..n]) && forall m :: n < m <= |t| ==> !Name(t[..m])
  {
    TailStops(t[1..]);
    var n := 1 + IdentTail(t[1..]);
    forall m | n < m <= |t| ensures !Name(t[..m]) { assert t[..m][n] == t[1..][n - 1]; }
  }

  lemma {:induction false} InsideIs(t: string, k: nat)
    ensures Inside(t, false) == Closed(k) <==> k < |t| && t[k] == '"' && Units(t[..k])
    decreases |t|
  {
    if t != "" && t[0] == '\\' {
      if |t| > 1 && k >= 2 {
        InsideIs(t[2..], k - 2);
        assert t[1..][1..] == t[2..];
        if k <= |t| { assert t[..k][2..] == t[2..][..k - 2]; }
      } else if |t| > 1 {
        assert t[1..][1..] == t[2..];
      }
    } else if t != "" && t[0] != '"' && t[0] != '\n' && k > 0 {
      InsideIs(t[1..], k - 1);
      if k <= |t| { assert t[..k][1..] == t[1..][..k - 1]; }
    }
  }

  /** A quotation ends at the first quote that is not escaped. */
  lemma QuotationIs(t: string, n: nat)
    requires t != "" && t[0] == '"'
    ensures Inside(t[1..], false) == Closed(n) <==> n + 2 <= |t| && Quotation(t[..n + 2])
  {
    InsideIs(t[1..], n);
    if n + 2 <= |t| { assert t[..n + 2][1..n + 1] == t[1..][..n]; }
  }

  // ---------------------------------------------------------------- what the scanner finds

  /** The first character tells which sort of token a spelling is of. */
  lemma SortOf(kind: string, value: string, x: string, decode: Decoder)
    requires Spelled(kind, value, x, decode)
    ensures x != ""
    ensures IsPunctuation(x[0]) ==> |x| == 1 && kind == value == x
    ensures IsDigit(x[0]) ==> Numeral(x) && kind == "NUMBER" && value == x
    ensures IsIdentStart(x[0]) ==> Name(x) && kind == (if Reserved(x) then x else "IDENT") && value == x
    ensures x[0] == '"' ==> Quotation(x) && kind == "STRING" && decode(x) == Some(value)
    ensures IsPunctuation(x[0]) || IsDigit(x[0]) || IsIdentStart(x[0]) || x[0] == '"'
  {
    hide Units, Reserved;
    if Numeral(x) {
      assert x[..|x|] == x;
      NumberWithin(x, |x|);
    }
  }

  lemma NotMixed(c: char)
    ensures IsPunctuation(c) ==> !IsDigit(c) && !IsIdentStart(c) && c != '"'
    ensures IsDigit(c) || IsIdentStart(c) || c == '"' || IsPunctuation(c) ==> !IsSpace(c) && c != '#' && c != '/'
    ensures IsDigit(c) ==> !IsIdentStart(c) && c != '"'
    ensures IsIdentStart(c) ==> c != '"'
  {
  }

  /** The scanner by the first character. */
  lemma ScanBy(t: string, decode: Decoder)
    requires t != ""
    ensures IsPunctuation(t[0]) ==> Scan(t, decode) == Lexeme([t[0]], [t[0]], 1)
    ensures t[0] == '"' ==> Scan(t, decode) == StringPiece(t, decode)
    ensures IsDigit(t[0]) ==>
              && NumberLength(t) > 0
              && Scan(t, decode) == Lexeme("NUMBER", t[..NumberLength(t)], NumberLength(t))
    ensures IsIdentStart(t[0]) ==>
              var x := t[..1 + IdentTail(t[1..])];
              Scan(t, decode) == Lexeme(if Reserved(x) then x else "IDENT", x, |x|)
    ensures Scan(t, decode).Lexeme? ==> IsPunctuation(t[0]) || t[0] == '"' || IsDigit(t[0]) || IsIdentStart(t[0])
  {
    NotMixed(t[0]);
    if NumberLength(t) > 0 { NumberIs(t); }
    hide LineLength, StringPiece, Digits, IdentTail;
  }

  lemma StringBy(t: string, n: nat, decode: Decoder)
    requires t != "" && t[0] == '"'
    ensures (exists value :: StringPiece(t, decode) == Lexeme("STRING", value, n)) <==>
              2 <= n <= |t| && Quotation(t[..n]) && decode(t[..n]).Some?
    ensures 2 <= n <= |t| && Quotation(t[..n]) && decode(t[..n]).Some? ==>
              StringPiece(t, decode) == Lexeme("STRING", decode(t[..n]).value, n)
    ensures StringPiece(t, decode).Lexeme? ==> StringPiece(t, decode).kind == "STRING"
  {
    if n >= 2 { QuotationIs(t, n - 2); }
    hide Inside, Quotation;
  }

  lemma ScanSpelled(t: string, decode: Decoder)
    requires t != "" && Scan(t, decode).Lexeme?
    ensures var p := Scan(t, decode); p.length > 0 && Spelled(p.kind, p.value, t[..p.length], decode)
  {
    ScanBy(t, decode);
    NotMixed(t[0]);
    if IsDigit(t[0]) {
      NumberIs(t);
    } else if IsIdentStart(t[0]) {
      NameIs(t);
    } else if t[0] == '"' {
      StringBy(t, Scan(t, decode).length, decode);
    }
    hide Scan, Reserved, NumberLength, IdentTail, Quotation, Numeral, Name, StringPiece;
  }

  lemma SpellingScanned(t: string, kind: string, value: string, m: nat, decode: Decoder)
    requires 0 < m <= |t| && Spelled(kind, value, t[..m], decode)
    ensures Scan(t, decode).Lexeme? && m <= Scan(t, decode).length
  {
    var x := t[..m];
    SortOf(kind, value, x, decode);
    ScanBy(t, decode);
    NotMixed(t[0]);
    if IsDigit(t[0]) {
      NumberWithin(t, m);
    } else if IsIdentStart(t[0]) {
      NameIs(t);
    } else if t[0] == '"' {
      StringBy(t, m, decode);
    }
    hide Scan, Reserved, NumberLength, IdentTail, Quotation, Numeral, Name, StringPiece, Spelled;
  }

  /** Main result: the scanner finds a token at the head of a text if and only if the text starts with a spelling of it,
      and with no longer spelling of any token. */
  lemma LexemeIff(t: string, kind: string, value: string, n: nat, decode: Decoder)
    requires t != ""
    ensures Scan(t, decode) == Lexeme(kind, value, n) <==>
              && 0 < n <= |t| && Spelled(kind, value, t[..n], decode)
              && forall m :: n < m <= |t| ==> !Spelling(t[..m], decode)
  {
    var p := Scan(t, decode);
    if p.Lexeme? { ScanSpelled(t, decode); }
    hide Scan, Spelled;
    forall m | 0 < m <= |t| && Spelling(t[..m], decode) ensures p.Lexeme? && m <= p.length {
      var k, v :| Spelled(k, v, t[..m], decode);
      SpellingScanned(t, k, v, m, decode);
    }
    if 0 < n <= |t| && Spelled(kind, value, t[..n], decode) {
      assert Spelling(t[..n], decode);
      if p.length == n { OneSort(kind, value, p.kind, p.value, t[..n], decode); }
    }
  }

  lemma OneSort(kind: string, value: string, k: string, v: string, x: string, decode: Decoder)
    requires Spelled(kind, value, x, decode) && Spelled(k, v, x, decode)
    ensures (kind, value) == (k, v)
  {
    SortOf(kind, value, x, decode);
    SortOf(k, v, x, decode);
    hide Spelled, Reserved, Quotation, Numeral, Name;
  }

  // ---------------------------------------------------------------- texts of spelled tokens

  /** The spellings, each followed by one space. */
  function Lay(xs: seq<string>): string { if xs == [] then "" else xs[0] + " " + Lay(xs[1..]) }

  /** One spelling a token. */
  ghost predicate SpellOut(tokens: seq<Token>, xs: seq<string>, decode: Decoder) {
    && |xs| == |tokens|
    && forall k :: 0 <= k < |tokens| ==> Spelled(tokens[k].kind, tokens[k].value, xs[k], decode)
  }

  lemma SpelledHead(kind: string, value: string, x: string, rest: string, decode: Decoder)
    requires Spelled(kind, value, x, decode)
    ensures x != "" && Scan(x + " " + rest, decode) == Lexeme(kind, value, |x|)
  {
    SortOf(kind, value, x, decode);
    assert x[..|x|] == x;
    LexemeIff(x, kind, value, |x|, decode);
    LexemeKeeps(x, " " + rest, decode);
    assert x + (" " + rest) == x + " " + rest;
    hide Scan, Spelled;
  }

  function Eof(): Token { Token("EOF", "", 0, 0, 0, 0) }

  /** Main result: a text of spelled tokens lexes to these tokens, and the end. */
  lemma {:induction false} SpelledOutLexes(tokens: seq<Token>, xs: seq<string>, j: nat, line: nat, column: nat,
                                           decode: Decoder)
    requires SpellOut(tokens, xs, decode)
    ensures var r := LexFrom(Lay(xs), j, line, column, decode); r.Ok? && SameTokens(tokens + [Eof()], r.value)
    decreases |tokens|
  {
    hide LexFrom, Scan, Spelled, LineAfter, ColumnAfter, SameTokens;
    if tokens == [] {
      LexEnd(j, line, column, decode);
      SameEof([Eof()], Token("EOF", "", j, j, line, column));
      assert tokens + [Eof()] == [Eof()];
    } else {
      var first, x, rest := tokens[0], xs[0], Lay(xs[1..]);
      SpelledHead(first.kind, first.value, x, rest, decode);
      LexHead(x, rest, first.kind, first.value, j, line, column, decode);
      var line', column' := LineAfter(" ", LineAfter(x, line)), ColumnAfter(" ", ColumnAfter(x, column));
      SpelledOutLexes(tokens[1..], xs[1..], j + |x| + 1, line', column', decode);
      var again := LexFrom(rest, j + |x| + 1, line', column', decode);
      var token := Token(first.kind, first.value, j, j + |x|, line, column);
      PrependOk(token, again);
      assert (tokens + [Eof()])[1..] == tokens[1..] + [Eof()];
      SameTokensCons(first, tokens + [Eof()], token, again.value);
    }
  }
}
