/** Properties of the lexer's reference definition (module Lexing), which the `Lexer` class is
    proved to compute. */
module LexerFacts {
  import opened Wrappers
  import opened Tokens
  import opened Lexing

  /** Tokens the lexer can emit before the final `EOF`. `Null`, `Undefined`, `Percent`,
      `PercentEqual`, `Amp`, `AmpAmp`, `Pipe`, `PipePipe`, `PlusPlus` and `MinusMinus` are
      declared in the token enum but no arm of `lex` produces them. */
  predicate Producible(t: Token)
  {
    !(t.EOF? || t.Null? || t.Undefined? || t.Percent? || t.PercentEqual? || t.Amp? || t.AmpAmp?
      || t.Pipe? || t.PipePipe? || t.PlusPlus? || t.MinusMinus?)
  }

  /** A character that the main loop consumes without emitting anything (outside a comment). */
  predicate IsSilent(c: char)
  {
    !IsWordStart(c) && !IsDigit(c) && c !in "\"(){};:,.[]/*+-=!<>"
  }

  predicate IsCommentStart(s: seq<char>, i: nat)
  {
    i + 1 < |s| && s[i] == '/' && s[i + 1] == '/'
  }

  lemma ScanEmitsProducible(s: seq<char>, i: nat)
    requires i < |s|
    ensures ScanAt(s, i).Ok? && ScanAt(s, i).value.token.Some? ==>
              Producible(ScanAt(s, i).value.token.value)
  {
  }

  /** The token list always ends in exactly one `EOF`, and every token before it is one the
      lexer can produce. */
  lemma {:induction false} LexFromShape(s: seq<char>, i: nat)
    requires i <= |s|
    ensures LexFrom(s, i).Ok? ==>
              var ts := LexFrom(s, i).value;
              |ts| > 0 && ts[|ts| - 1] == EOF &&
              forall k :: 0 <= k < |ts| - 1 ==> ts[k] != EOF && Producible(ts[k])
    decreases |s| - i
  {
    if i < |s| && ScanAt(s, i).Ok? {
      var step := ScanAt(s, i).value;
      LexFromShape(s, step.next);
      ScanEmitsProducible(s, i);
      if LexFrom(s, step.next).Ok? {
        var rest := LexFrom(s, step.next).value;
        var ts := Emitted(step.token) + rest;
        assert LexFrom(s, i) == Ok(ts);
        forall k | 0 <= k < |ts| - 1
          ensures ts[k] != EOF && Producible(ts[k])
        {
          if step.token.Some? && k > 0 {
            assert ts[k] == rest[k - 1];
          } else if step.token.None? {
            assert ts[k] == rest[k];
          }
        }
      }
    }
  }

  lemma TokenizeEndsWithEof(s: seq<char>)
    ensures Tokenize(s).Ok? ==>
              var ts := Tokenize(s).value;
              |ts| > 0 && ts[|ts| - 1] == EOF && forall k :: 0 <= k < |ts| - 1 ==> ts[k] != EOF
  {
    LexFromShape(s, 0);
  }

  /** A turn of the main loop emits nothing exactly at a silent character (which it consumes
      alone) and at the start of a `//` comment. */
  lemma ScanSilent(s: seq<char>, i: nat)
    requires i < |s|
    ensures IsSilent(s[i]) ==> ScanAt(s, i) == Ok(Scanned(None, i + 1))
    ensures (ScanAt(s, i).Ok? && ScanAt(s, i).value.token.None?) <==>
              IsSilent(s[i]) || IsCommentStart(s, i)
  {
  }

  lemma SilentCharacters()
    ensures forall c :: c in " \n\t\r%&|'$#@" ==> IsSilent(c)
  {
  }

  /** `//` skips up to, not including, the next newline, or to the end of the input. */
  lemma CommentSkipsToNewline(s: seq<char>, i: nat)
    requires IsCommentStart(s, i)
    ensures ScanAt(s, i).Ok? && ScanAt(s, i).value.token.None?
    ensures var j := ScanAt(s, i).value.next;
            (j == |s| || s[j] == '\n') && forall k :: i < k < j ==> s[k] != '\n'
  {
  }

  /** A word is the longest run of word characters; it becomes a keyword token when it is in
      the keyword table and an identifier otherwise. */
  lemma ScanWord(s: seq<char>, i: nat)
    requires i < |s| && IsWordStart(s[i])
    ensures ScanAt(s, i).Ok?
    ensures var j := ScanAt(s, i).value.next;
            var word := s[i..j];
            (forall k :: 0 <= k < |word| ==> IsWordChar(word[k])) &&
            (j == |s| || !IsWordChar(s[j])) &&
            ScanAt(s, i).value.token == Some(if word in Keywords then Keywords[word] else Identifier(word))
  {
  }

  /** `null` and `undefined` are not in the keyword table, so they lex as identifiers. */
  lemma KeywordTable()
    ensures "null" !in Keywords && "undefined" !in Keywords
    ensures "let" in Keywords && Keywords["let"] == Let
    ensures "function" in Keywords && Keywords["function"] == Function
  {
  }

  /** A string literal runs to the next double quote; without one it is an error. */
  lemma ScanString(s: seq<char>, i: nat)
    requires i < |s| && s[i] == '"'
    ensures ScanAt(s, i).Ok? <==> exists k :: i < k < |s| && s[k] == '"'
    ensures ScanAt(s, i).Ok? ==>
              var j := ScanAt(s, i).value.next;
              i + 2 <= j && s[j - 1] == '"' &&
              ScanAt(s, i).value.token == Some(StringLiteral(s[i + 1..j - 1])) &&
              forall k :: i < k < j - 1 ==> s[k] != '"'
  {
    var close := RunEnd(s, i + 1, NotQuote);
    if exists k :: i < k < |s| && s[k] == '"' {
      var k :| i < k < |s| && s[k] == '"';
      assert close <= k;
    }
  }

  // ---------------------------------------------------------------------------------------
  // Numbers

  function DigitChar(d: nat): (c: char)
    requires d < 10
    ensures IsDigit(c) && DigitValue(c) == d
  {
    ('0' as int + d) as char
  }

  /** The shortest decimal spelling of `n`. */
  function DecimalDigits(n: nat): (ds: string)
    ensures |ds| > 0 && AllDigits(ds)
  {
    if n < 10 then [DigitChar(n)] else DecimalDigits(n / 10) + [DigitChar(n % 10)]
  }

  lemma {:induction false} DecimalRoundTrip(n: nat)
    ensures DecimalValue(DecimalDigits(n)) == n
  {
    var ds := DecimalDigits(n);
    if n >= 10 {
      DecimalRoundTrip(n / 10);
      assert ds[..|ds| - 1] == DecimalDigits(n / 10);
    }
  }

  lemma RunEndOfAll(s: seq<char>, i: nat, p: char -> bool)
    requires i <= |s|
    requires forall k :: i <= k < |s| ==> p(s[k])
    ensures RunEnd(s, i, p) == |s|
  {
  }

  /** Lexing the decimal spelling of a number gives back that number. */
  lemma NumberRoundTrip(n: nat)
    ensures Tokenize(DecimalDigits(n)) == Ok([Number(n), EOF])
  {
    var s := DecimalDigits(n);
    RunEndOfAll(s, 0, IsDigit);
    assert s[0..|s|] == s;
    DecimalRoundTrip(n);
    assert ScanAt(s, 0) == Ok(Scanned(Some(Number(n)), |s|));
    assert LexFrom(s, |s|) == Ok([EOF]);
    assert [Number(n)] + [EOF] == [Number(n), EOF];
    assert LexFrom(s, 0) == Ok([Number(n), EOF]);
  }

  /** The seven operators that a following `=` extends, with the token each makes alone and
      the one it makes with `=`. */
  function GreedyPair(c: char): Option<(Token, Token)>
  {
    match c
    case '*' => Some((Star, StarEqual))
    case '+' => Some((Plus, PlusEqual))
    case '-' => Some((Minus, MinusEqual))
    case '=' => Some((Equal, EqualEqual))
    case '!' => Some((Bang, BangEqual))
    case '<' => Some((Less, LessEqual))
    case '>' => Some((Greater, GreaterEqual))
    case _ => None
  }

  /** Each of the seven operators takes a following `=` into a two-character token and is a
      one-character token otherwise; so `--` and `++` are two one-character tokens. */
  lemma ScanGreedy(s: seq<char>, i: nat)
    requires i < |s| && GreedyPair(s[i]).Some?
    ensures i + 1 < |s| && s[i + 1] == '=' ==> ScanAt(s, i) == Ok(Scanned(Some(GreedyPair(s[i]).value.1), i + 2))
    ensures !(i + 1 < |s| && s[i + 1] == '=') ==> ScanAt(s, i) == Ok(Scanned(Some(GreedyPair(s[i]).value.0), i + 1))
  {
  }

  /** `/` followed by `=` makes `SlashEqual` but consumes only the `/`, so the `=` is lexed
      again on its own. */
  lemma SlashEqualLeavesEqual(s: seq<char>, i: nat)
    requires i + 1 < |s| && s[i] == '/' && s[i + 1] == '='
    ensures ScanAt(s, i) == Ok(Scanned(Some(SlashEqual), i + 1))
  {
  }

  // ---------------------------------------------------------------------------------------
  // Worked examples of the quirks

  lemma GreedyExamples()
    ensures Tokenize("==") == Ok([EqualEqual, EOF])
    ensures Tokenize("--") == Ok([Minus, Minus, EOF])
    ensures Tokenize("<=") == Ok([LessEqual, EOF])
    ensures Tokenize("/=") == Ok([SlashEqual, Equal, EOF])
  {
    assert ScanAt("==", 0) == Ok(Scanned(Some(EqualEqual), 2));
    assert LexFrom("==", 2) == Ok([EOF]);
    assert [EqualEqual] + [EOF] == [EqualEqual, EOF];
    assert LexFrom("==", 0) == Ok([EqualEqual, EOF]);
    assert ScanAt("--", 0) == Ok(Scanned(Some(Minus), 1));
    assert ScanAt("--", 1) == Ok(Scanned(Some(Minus), 2));
    assert LexFrom("--", 2) == Ok([EOF]);
    assert [Minus] + [EOF] == [Minus, EOF];
    assert LexFrom("--", 1) == Ok([Minus, EOF]);
    assert [Minus] + [Minus, EOF] == [Minus, Minus, EOF];
    assert LexFrom("--", 0) == Ok([Minus, Minus, EOF]);
    assert ScanAt("<=", 0) == Ok(Scanned(Some(LessEqual), 2));
    assert LexFrom("<=", 2) == Ok([EOF]);
    assert [LessEqual] + [EOF] == [LessEqual, EOF];
    assert LexFrom("<=", 0) == Ok([LessEqual, EOF]);
    assert ScanAt("/=", 0) == Ok(Scanned(Some(SlashEqual), 1));
    assert ScanAt("/=", 1) == Ok(Scanned(Some(Equal), 2));
    assert LexFrom("/=", 2) == Ok([EOF]);
    assert [Equal] + [EOF] == [Equal, EOF];
    assert LexFrom("/=", 1) == Ok([Equal, EOF]);
    assert [SlashEqual] + [Equal, EOF] == [SlashEqual, Equal, EOF];
    assert LexFrom("/=", 0) == Ok([SlashEqual, Equal, EOF]);
  }

  lemma DecimalPointExample()
    ensures Tokenize("1.5") == Ok([Number(1), Dot, Number(5), EOF])
  {
    var s := "1.5";
    assert RunEnd(s, 1, IsDigit) == 1;
    assert RunEnd(s, 0, IsDigit) == 1;
    assert s[0..1] == "1" && DecimalValue("1") == 1;
    assert ScanAt(s, 0) == Ok(Scanned(Some(Number(1)), 1));
    assert ScanAt(s, 1) == Ok(Scanned(Some(Dot), 2));
    RunEndOfAll(s, 2, IsDigit);
    assert s[2..3] == "5" && DecimalValue("5") == 5;
    assert ScanAt(s, 2) == Ok(Scanned(Some(Number(5)), 3));
    assert LexFrom(s, 3) == Ok([EOF]);
    assert [Number(5)] + [EOF] == [Number(5), EOF];
    assert LexFrom(s, 2) == Ok([Number(5), EOF]);
    assert [Dot] + [Number(5), EOF] == [Dot, Number(5), EOF];
    assert LexFrom(s, 1) == Ok([Dot, Number(5), EOF]);
    assert [Number(1)] + [Dot, Number(5), EOF] == [Number(1), Dot, Number(5), EOF];
    assert LexFrom(s, 0) == Ok([Number(1), Dot, Number(5), EOF]);
  }

  lemma NullIsAnIdentifier()
    ensures Tokenize("null") == Ok([Identifier("null"), EOF])
  {
    var s := "null";
    RunEndOfAll(s, 0, IsWordChar);
    assert s[0..4] == "null";
    KeywordTable();
    assert ScanAt(s, 0) == Ok(Scanned(Some(Identifier("null")), 4));
    assert LexFrom(s, 4) == Ok([EOF]);
    assert [Identifier("null")] + [EOF] == [Identifier("null"), EOF];
    assert LexFrom(s, 0) == Ok([Identifier("null"), EOF]);
  }

  lemma UnterminatedStringExample()
    ensures Tokenize("\"ab") == Err(UnterminatedString)
  {
    ScanString("\"ab", 0);
  }
}
