/** The lexer (src/lexer.rs): a cursor over the source characters that turns them into a token
    list ending in `EOF`.

    The first half of the module is the reference definition: `ScanAt` is one turn of the main
    loop of `lex` (which token, if any, is emitted and where the cursor ends up) and `LexFrom`
    runs that loop to the end. The second half is the `Lexer` class, whose methods follow the
    source step by step and are proved to compute exactly what the reference definition says. */
module Lexing {
  import opened Wrappers
  import opened Tokens

  /** The one panic of the lexer: `unwrap` on a missing closing quote (lexer.rs:94-95). */
  datatype LexError = UnterminatedString

  /** What one turn of the main loop produces: the emitted token, if any, and the new cursor. */
  datatype Scanned = Scanned(token: Option<Token>, next: nat)

  // ---------------------------------------------------------------------------------------
  // Character classes (ASCII)

  predicate IsAsciiLetter(c: char) { 'a' <= c <= 'z' || 'A' <= c <= 'Z' }

  predicate IsDigit(c: char) { '0' <= c <= '9' }

  /** A character that starts a word in `lex` (lexer.rs:108). */
  predicate IsWordStart(c: char) { IsAsciiLetter(c) || c == '_' }

  /** A character that continues a word in `lex_identifier` (lexer.rs:66). */
  predicate IsWordChar(c: char) { IsAsciiLetter(c) || IsDigit(c) || c == '_' || c == '$' }

  predicate NotNewline(c: char) { c != '\n' }

  predicate NotQuote(c: char) { c != '"' }

  predicate AllDigits(ds: string) { forall k :: 0 <= k < |ds| ==> IsDigit(ds[k]) }

  // ---------------------------------------------------------------------------------------
  // Reference definition

  /** The end of the longest run of characters satisfying `p` that starts at `i`. */
  function RunEnd(s: seq<char>, i: nat, p: char -> bool): (j: nat)
    requires i <= |s|
    ensures i <= j <= |s|
    ensures forall k :: i <= k < j ==> p(s[k])
    ensures j < |s| ==> !p(s[j])
    decreases |s| - i
  {
    if i < |s| && p(s[i]) then RunEnd(s, i + 1, p) else i
  }

  /** The keyword table of `lex_identifier` (lexer.rs:48-62). */
  const Keywords: map<string, Token> :=
    map[
      "let" := Let,
      "var" := Var,
      "if" := If,
      "else" := Else,
      "while" := While,
      "for" := For,
      "do" := Do,
      "continue" := Continue,
      "break" := Break,
      "return" := Return,
      "function" := Function,
      "true" := True,
      "false" := False
    ]

  function KeywordOrIdentifier(word: string): Token
  {
    if word in Keywords then Keywords[word] else Identifier(word)
  }

  function DigitValue(c: char): nat
    requires IsDigit(c)
  {
    c as int - '0' as int
  }

  /** The value of a string of decimal digits, read most significant digit first. */
  function DecimalValue(ds: string): nat
    requires AllDigits(ds)
  {
    if |ds| == 0 then 0 else 10 * DecimalValue(ds[..|ds| - 1]) + DigitValue(ds[|ds| - 1])
  }

  /** A one-character operator that becomes a two-character one when `=` follows it. */
  function Greedy(s: seq<char>, i: nat, single: Token, withEqual: Token): (r: Scanned)
    requires i < |s|
  {
    if i + 1 < |s| && s[i + 1] == '=' then Scanned(Some(withEqual), i + 2)
    else Scanned(Some(single), i + 1)
  }

  /** A string literal whose opening quote is at `i` (lexer.rs:90-100). */
  function StringAt(s: seq<char>, i: nat): (r: Result<Scanned, LexError>)
    requires i < |s|
  {
    var close := RunEnd(s, i + 1, NotQuote);
    if close == |s| then Err(UnterminatedString)
    else Ok(Scanned(Some(StringLiteral(s[i + 1..close])), close + 1))
  }

  /** One turn of the main loop of `lex` with the cursor at `i` (lexer.rs:105-199). */
  function ScanAt(s: seq<char>, i: nat): (r: Result<Scanned, LexError>)
    requires i < |s|
    ensures r.Ok? ==> i < r.value.next <= |s|
  {
    var c := s[i];
    if IsWordStart(c) then
      var j := RunEnd(s, i, IsWordChar);
      Ok(Scanned(Some(KeywordOrIdentifier(s[i..j])), j))
    else if IsDigit(c) then
      var j := RunEnd(s, i, IsDigit);
      Ok(Scanned(Some(Number(DecimalValue(s[i..j]))), j))
    else
      match c
      case '"' => StringAt(s, i)
      case ' ' | '\n' | '\t' => Ok(Scanned(None, i + 1))
      case '(' => Ok(Scanned(Some(LeftParen), i + 1))
      case ')' => Ok(Scanned(Some(RightParen), i + 1))
      case '{' => Ok(Scanned(Some(LeftBrace), i + 1))
      case '}' => Ok(Scanned(Some(RightBrace), i + 1))
      case ';' => Ok(Scanned(Some(Semicolon), i + 1))
      case ':' => Ok(Scanned(Some(Colon), i + 1))
      case ',' => Ok(Scanned(Some(Comma), i + 1))
      case '.' => Ok(Scanned(Some(Dot), i + 1))
      case '[' => Ok(Scanned(Some(LeftBracket), i + 1))
      case ']' => Ok(Scanned(Some(RightBracket), i + 1))
      case '/' =>
        if i + 1 < |s| && s[i + 1] == '/' then Ok(Scanned(None, RunEnd(s, i + 1, NotNewline)))
        else if i + 1 < |s| && s[i + 1] == '=' then Ok(Scanned(Some(SlashEqual), i + 1))
        else Ok(Scanned(Some(Slash), i + 1))
      case '*' => Ok(Greedy(s, i, Star, StarEqual))
      case '+' => Ok(Greedy(s, i, Plus, PlusEqual))
      case '-' => Ok(Greedy(s, i, Minus, MinusEqual))
      case '=' => Ok(Greedy(s, i, Equal, EqualEqual))
      case '!' => Ok(Greedy(s, i, Bang, BangEqual))
      case '<' => Ok(Greedy(s, i, Less, LessEqual))
      case '>' => Ok(Greedy(s, i, Greater, GreaterEqual))
      case _ => Ok(Scanned(None, i + 1))
  }

  function Emitted(token: Option<Token>): seq<Token>
  {
    if token.Some? then [token.value] else []
  }

  function Prepend(prefix: seq<Token>, r: Result<seq<Token>, LexError>): Result<seq<Token>, LexError>
  {
    match r
    case Ok(rest) => Ok(prefix + rest)
    case Err(e) => Err(e)
  }

  /** The tokens `lex` produces when its cursor starts at `i`. */
  function LexFrom(s: seq<char>, i: nat): Result<seq<Token>, LexError>
    requires i <= |s|
    decreases |s| - i
  {
    if i == |s| then Ok([EOF])
    else
      var step :- ScanAt(s, i);
      var rest :- LexFrom(s, step.next);
      Ok(Emitted(step.token) + rest)
  }

  /** `Lexer::new(source).lex()`. */
  function Tokenize(s: seq<char>): Result<seq<Token>, LexError>
  {
    LexFrom(s, 0)
  }

  lemma PrependTwice(a: seq<Token>, b: seq<Token>, r: Result<seq<Token>, LexError>)
    ensures Prepend(a, Prepend(b, r)) == Prepend(a + b, r)
  {
    if r.Ok? {
      assert a + (b + r.value) == (a + b) + r.value;
    }
  }

  // ---------------------------------------------------------------------------------------
  // The lexer as the source writes it

  class Lexer {
    const source: seq<char>
    var pos: nat

    constructor (source: seq<char>)
      ensures this.source == source && pos == 0
    {
      this.source := source;
      pos := 0;
    }

    /** The character `offset` places after the cursor, if there is one. */
    function PeekAhead(offset: nat): (c: Option<char>)
      reads this
      ensures c.Some? <==> pos + offset < |source|
      ensures c.Some? ==> c.value == source[pos + offset]
    {
      if pos + offset >= |source| then None else Some(source[pos + offset])
    }

    function Peek(): (c: Option<char>)
      reads this
      ensures c.Some? <==> pos < |source|
      ensures c.Some? ==> c.value == source[pos]
    {
      PeekAhead(0)
    }

    /** Returns the character under the cursor and advances the cursor, even past the end. */
    method Consume() returns (c: Option<char>)
      modifies this
      ensures c == old(Peek())
      ensures pos == old(pos) + 1
    {
      c := Peek();
      pos := pos + 1;
    }

    method ConsumeWhile(p: char -> bool)
      requires pos <= |source|
      modifies this
      ensures pos == RunEnd(source, old(pos), p)
    {
      while Peek().Some?
        invariant old(pos) <= pos <= |source|
        invariant RunEnd(source, old(pos), p) == RunEnd(source, pos, p)
        decreases |source| - pos
      {
        var c := Peek().value;
        if p(c) {
          var skipped := Consume();
        } else {
          break;
        }
      }
    }

    method LexIdentifier() returns (t: Token)
      requires pos <= |source|
      modifies this
      ensures pos == RunEnd(source, old(pos), IsWordChar)
      ensures t == KeywordOrIdentifier(source[old(pos)..pos])
    {
      var word := "";
      while Peek().Some?
        invariant old(pos) <= pos <= |source|
        invariant word == source[old(pos)..pos]
        invariant RunEnd(source, old(pos), IsWordChar) == RunEnd(source, pos, IsWordChar)
        decreases |source| - pos
      {
        var c := Peek().value;
        if IsWordChar(c) {
          var d := Consume();
          word := word + [d.value];
        } else {
          break;
        }
      }
      t := KeywordOrIdentifier(word);
    }

    /** Called only with a digit under the cursor, so the digit run it parses is never empty
        and the "Invalid number" panic of lexer.rs:87 cannot happen. */
    method LexNumeric() returns (t: Token)
      requires pos < |source| && IsDigit(source[pos])
      modifies this
      ensures pos == RunEnd(source, old(pos), IsDigit)
      ensures t == Number(DecimalValue(source[old(pos)..pos]))
    {
      var number := "";
      while Peek().Some? && IsDigit(Peek().value)
        invariant old(pos) <= pos <= |source|
        invariant number == source[old(pos)..pos]
        invariant RunEnd(source, old(pos), IsDigit) == RunEnd(source, pos, IsDigit)
        decreases |source| - pos
      {
        var d := Consume();
        number := number + [d.value];
      }
      t := Number(DecimalValue(number));
    }

    method LexLiteral() returns (r: Result<Token, LexError>)
      requires pos < |source|
      modifies this
      ensures match StringAt(source, old(pos))
              case Ok(step) => r == Ok(step.token.value) && pos == step.next
              case Err(e) => r == Err(e)
    {
      var quote := Consume();
      var literal := "";
      while Peek() != Some('"')
        invariant old(pos) + 1 <= pos <= |source|
        invariant literal == source[old(pos) + 1..pos]
        invariant RunEnd(source, old(pos) + 1, NotQuote) == RunEnd(source, pos, NotQuote)
        decreases |source| - pos
      {
        var c := Consume();
        if c.None? {
          return Err(UnterminatedString);
        }
        literal := literal + [c.value];
      }
      quote := Consume();
      return Ok(StringLiteral(literal));
    }

    method Lex() returns (r: Result<seq<Token>, LexError>)
      requires pos <= |source|
      modifies this
      ensures r == LexFrom(source, old(pos))
    {
      var tokens: seq<Token> := [];
      assert Prepend(tokens, LexFrom(source, pos)) == LexFrom(source, pos) by {
        if LexFrom(source, pos).Ok? {
          assert [] + LexFrom(source, pos).value == LexFrom(source, pos).value;
        }
      }
      while Peek().Some?
        invariant pos <= |source|
        invariant LexFrom(source, old(pos)) == Prepend(tokens, LexFrom(source, pos))
        decreases |source| - pos
      {
        var c := Peek().value;
        ghost var start := pos;
        var token: Option<Token>;
        if IsWordStart(c) {
          var t := LexIdentifier();
          token := Some(t);
        } else if IsDigit(c) {
          var t := LexNumeric();
          token := Some(t);
        } else {
          match c {
            case '"' =>
              var t :- LexLiteral();
              token := Some(t);
            case ' ' | '\n' | '\t' =>
              var skipped := Consume();
              token := None;
            case '(' => token := ConsumeAs(LeftParen);
            case ')' => token := ConsumeAs(RightParen);
            case '{' => token := ConsumeAs(LeftBrace);
            case '}' => token := ConsumeAs(RightBrace);
            case ';' => token := ConsumeAs(Semicolon);
            case ':' => token := ConsumeAs(Colon);
            case ',' => token := ConsumeAs(Comma);
            case '.' => token := ConsumeAs(Dot);
            case '[' => token := ConsumeAs(LeftBracket);
            case ']' => token := ConsumeAs(RightBracket);
            case '/' =>
              var slash := Consume();
              if Peek() == Some('/') {
                ConsumeWhile(NotNewline);
                token := None;
              } else if Peek() == Some('=') {
                token := Some(SlashEqual);
              } else {
                token := Some(Slash);
              }
            case '*' => token := LexGreedy(Star, StarEqual);
            case '+' => token := LexGreedy(Plus, PlusEqual);
            case '-' => token := LexGreedy(Minus, MinusEqual);
            case '=' => token := LexGreedy(Equal, EqualEqual);
            case '!' => token := LexGreedy(Bang, BangEqual);
            case '<' => token := LexGreedy(Less, LessEqual);
            case '>' => token := LexGreedy(Greater, GreaterEqual);
            case _ =>
              var skipped := Consume();
              token := None;
          }
        }
        assert ScanAt(source, start) == Ok(Scanned(token, pos));
        PrependTwice(tokens, Emitted(token), LexFrom(source, pos));
        tokens := tokens + Emitted(token);
      }
      tokens := tokens + [EOF];
      return Ok(tokens);
    }

    /** A single-character token: consume it and emit `t`. */
    method ConsumeAs(t: Token) returns (token: Option<Token>)
      requires pos < |source|
      modifies this
      ensures pos == old(pos) + 1 && token == Some(t)
    {
      var c := Consume();
      token := Some(t);
    }

    /** The operator arms of `lex` (lexer.rs:133-195): consume the operator character and, when
        `=` follows, the `=` too. */
    method LexGreedy(single: Token, withEqual: Token) returns (token: Option<Token>)
      requires pos < |source|
      modifies this
      ensures token == Greedy(source, old(pos), single, withEqual).token
      ensures pos == Greedy(source, old(pos), single, withEqual).next
    {
      var c := Consume();
      if Peek() == Some('=') {
        c := Consume();
        token := Some(withEqual);
      } else {
        token := Some(single);
      }
    }
  }
}
