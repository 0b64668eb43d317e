/** The recursive-descent parser of src/parser/parser.rs as pure functions over a token
    sequence and a position. Each `…At(t, i)` function is the Rust method of the same role
    started with the cursor at `i`; it returns what the method returns together with the
    cursor's final position, and every `panic!` of the source is an `Err`.

    The parser is handed the lexer's output, which ends in `EOF`, and the source relies on
    that: `peek` and `done` index the tokens without checking the position, and only the final
    `EOF` stops the loops. Each function therefore requires a token sequence that ends in
    `EOF` with the cursor on one of its tokens, and promises that it moves the cursor forward
    and never past that `EOF`, so every later `peek` is in bounds. */
module ParserSpec {
  import opened Wrappers
  import opened Tokens
  import opened Ast

  datatype ParseError =
    | Expected(token: Token)                           // `expect` found another token
    | ExpectedIdentifier(after: Token, found: Token)   // a name after `let`, `function`, `.`
    | ExpectedKey(found: Token)                        // a key in an object literal
    | UnexpectedToken(found: Token)                    // no expression starts with `found`

  /** A parsed value and the position of the first token after it. */
  datatype Parsed<T> = Parsed(value: T, next: nat)

  /** The shape of every token sequence the lexer produces: it ends in `EOF`. */
  predicate EndsWithEof(t: seq<Token>)
  {
    |t| > 0 && t[|t| - 1].EOF?
  }

  /** The tokens end in `EOF` and the cursor is on one of them. */
  predicate InStream(t: seq<Token>, i: nat)
  {
    EndsWithEof(t) && i < |t|
  }

  // ---------------------------------------------------------------------------------------
  // The cursor primitives (parser.rs:15-39)

  /** `expect(want)` at `i`: the position after `want`, or an error. Since `want` is never
      `EOF`, the new position is still on a token. */
  function ExpectAt(t: seq<Token>, i: nat, want: Token): (r: Result<nat, ParseError>)
    requires InStream(t, i)
    ensures r.Ok? <==> t[i] == want
    ensures r.Ok? ==> r.value == i + 1 && (want != EOF ==> r.value < |t|)
    ensures r.Err? ==> r.error == Expected(want)
  {
    if t[i] == want then Ok(i + 1) else Err(Expected(want))
  }

  /** `consume` of a name: the `match self.consume() { Token::Identifier(name) => … }` that
      follows `let`, `function` and `.`, and that reads each parameter of a function. */
  function IdentifierAt(t: seq<Token>, i: nat, after: Token): (r: Result<Parsed<string>, ParseError>)
    requires InStream(t, i)
    ensures r.Ok? <==> t[i].Identifier?
    ensures r.Ok? ==> r.value == Parsed(t[i].name, i + 1) && i + 1 < |t|
    ensures r.Err? ==> r.error == ExpectedIdentifier(after, t[i])
  {
    if t[i].Identifier? then Ok(Parsed(t[i].name, i + 1)) else Err(ExpectedIdentifier(after, t[i]))
  }

  // ---------------------------------------------------------------------------------------
  // Operators

  /** The table of `match_infix_operators` (parser.rs:281-353): the operator a token stands
      for, if it is an infix operator. */
  function InfixOperator(tok: Token): Option<BinaryOperator>
  {
    if tok.Plus? then Some(Add)
    else if tok.Minus? then Some(Sub)
    else if tok.Star? then Some(Mul)
    else if tok.Slash? then Some(Div)
    else if tok.Percent? then Some(Mod)
    else if tok.AmpAmp? then Some(BinaryAnd)
    else if tok.PipePipe? then Some(BinaryOr)
    else if tok.EqualEqual? then Some(BinaryOperator.Equal)
    else if tok.BangEqual? then Some(NotEqual)
    else if tok.Greater? then Some(GreaterThan)
    else if tok.GreaterEqual? then Some(GreaterThanOrEqual)
    else if tok.Less? then Some(LessThan)
    else if tok.LessEqual? then Some(LessThanOrEqual)
    else if tok.PlusEqual? then Some(BinaryOperator.PlusEqual)
    else if tok.MinusEqual? then Some(BinaryOperator.MinusEqual)
    else if tok.StarEqual? then Some(MulEqual)
    else if tok.SlashEqual? then Some(DivEqual)
    else None
  }

  /** The token each binary operator is written with: the inverse of `InfixOperator`. */
  function OperatorToken(op: BinaryOperator): (tok: Token)
    ensures InfixOperator(tok) == Some(op)
  {
    match op
    case Add => Plus
    case Sub => Minus
    case Mul => Star
    case Div => Slash
    case Mod => Percent
    case BinaryAnd => AmpAmp
    case BinaryOr => PipePipe
    case Equal => EqualEqual
    case NotEqual => BangEqual
    case GreaterThan => Greater
    case GreaterThanOrEqual => GreaterEqual
    case LessThan => Less
    case LessThanOrEqual => LessEqual
    case PlusEqual => Token.PlusEqual
    case MinusEqual => Token.MinusEqual
    case MulEqual => StarEqual
    case DivEqual => SlashEqual
  }

  /** The tokens that end a comma-separated list: arguments, array elements and object
      properties. */
  predicate IsListEnd(tok: Token)
  {
    tok.RightParen? || tok.RightBracket? || tok.RightBrace?
  }

  /** The tokens on which the postfix loop of `expression` goes on. */
  predicate IsPostfixStart(tok: Token)
  {
    tok.LeftBracket? || tok.Dot? || tok.LeftParen? || tok.PlusPlus? || tok.MinusMinus?
  }

  /** The tokens with which a parsed expression could go on: a postfix operator, `=`, or an
      infix operator. */
  predicate Continues(tok: Token)
  {
    IsPostfixStart(tok) || tok.Equal? || InfixOperator(tok).Some?
  }

  // ---------------------------------------------------------------------------------------
  // Expressions (parser.rs:221-279 and 355-475)

  /** `expression` at `i`: a primary expression, its postfix operators, then either an
      assignment or a run of infix operators. It stops only where the expression cannot go
      on, which is what makes every operator chain nest to the right. */
  function ExpressionAt(t: seq<Token>, i: nat): (r: Result<Parsed<Expression>, ParseError>)
    requires InStream(t, i)
    ensures r.Ok? ==> i < r.value.next < |t| && !Continues(t[r.value.next])
    decreases |t| - i, 2
  {
    var primary :- PrimaryAt(t, i);
    var postfix :- PostfixAt(primary.value, t, primary.next);
    if t[postfix.next].Equal? then
      var value :- ExpressionAt(t, postfix.next + 1);
      Ok(Parsed(Assignment(postfix.value, value.value), value.next))
    else
      InfixAt(postfix.value, t, postfix.next)
  }

  /** The first `match self.consume()` of `expression` (parser.rs:357-403). */
  function PrimaryAt(t: seq<Token>, i: nat): (r: Result<Parsed<Expression>, ParseError>)
    requires InStream(t, i)
    ensures r.Ok? ==> i < r.value.next < |t|
    decreases |t| - i, 1
  {
    var tok := t[i];
    if tok.Number? then Ok(Parsed(Expression.Literal(Literal.Number(tok.value)), i + 1))
    else if tok.StringLiteral? then Ok(Parsed(Expression.Literal(Literal.String(tok.text)), i + 1))
    else if tok.Identifier? then
      if t[i + 1].LeftParen? then CallAt(Expression.Identifier(tok.name), t, i + 1)
      else Ok(Parsed(Expression.Identifier(tok.name), i + 1))
    else if tok.True? then Ok(Parsed(Expression.Literal(Boolean(true)), i + 1))
    else if tok.False? then Ok(Parsed(Expression.Literal(Boolean(false)), i + 1))
    else if tok.Null? then Ok(Parsed(Expression.Literal(Literal.Null), i + 1))
    else if tok.Undefined? then Ok(Parsed(Expression.Literal(Literal.Undefined), i + 1))
    else if tok.LeftParen? then ParenthesizedAt(t, i)
    else if tok.LeftBracket? then ArrayAt(t, i + 1)
    else if tok.LeftBrace? then
      var fields :- ObjectAt(t, i + 1);
      Ok(Parsed(Expression.Object(fields.value), fields.next))
    else if tok.Minus? then UnaryAt(Negate, t, i + 1)
    else if tok.Bang? then UnaryAt(Not, t, i + 1)
    else Err(UnexpectedToken(tok))
  }

  /** `( expression )`: a parenthesized primary, and the condition of `if` and `while`. */
  function ParenthesizedAt(t: seq<Token>, i: nat): (r: Result<Parsed<Expression>, ParseError>)
    requires InStream(t, i)
    ensures r.Ok? ==> i + 2 < r.value.next < |t| && t[r.value.next - 1].RightParen?
    decreases |t| - i, 0
  {
    var open :- ExpectAt(t, i, LeftParen);
    var inner :- ExpressionAt(t, open);
    var close :- ExpectAt(t, inner.next, RightParen);
    Ok(Parsed(inner.value, close))
  }

  /** A prefix `-` or `!`, started after the operator: it applies to the whole expression
      that follows. */
  function UnaryAt(op: UnaryOperator, t: seq<Token>, i: nat): (r: Result<Parsed<Expression>, ParseError>)
    requires InStream(t, i)
    ensures r.Ok? ==> i < r.value.next < |t|
    decreases |t| - i, 3
  {
    var operand :- ExpressionAt(t, i);
    Ok(Parsed(UnaryOp(op, operand.value), operand.next))
  }

  /** An array literal, started after the `[`: `do_array` and the closing `]`. */
  function ArrayAt(t: seq<Token>, i: nat): (r: Result<Parsed<Expression>, ParseError>)
    requires InStream(t, i)
    ensures r.Ok? ==> i < r.value.next < |t|
    decreases |t| - i, 6
  {
    var elements :- ElementsAt(t, i, RightBracket);
    Ok(Parsed(Expression.Array(elements.value), elements.next + 1))
  }

  /** The postfix loop of `expression` (parser.rs:406-451), applied to the expression `e`
      parsed so far; it stops at the first token that is not a postfix operator. */
  function PostfixAt(e: Expression, t: seq<Token>, i: nat): (r: Result<Parsed<Expression>, ParseError>)
    requires InStream(t, i)
    ensures r.Ok? ==> i <= r.value.next < |t| && !IsPostfixStart(t[r.value.next])
    ensures !IsPostfixStart(t[i]) ==> r == Ok(Parsed(e, i))
    decreases |t| - i, 3
  {
    if IsPostfixStart(t[i]) then
      var step :- PostfixStepAt(e, t, i);
      PostfixAt(step.value, t, step.next)
    else
      Ok(Parsed(e, i))
  }

  /** One turn of the postfix loop at a postfix operator: an index, a property, a call, `++`
      or `--` applied to `e`. */
  function PostfixStepAt(e: Expression, t: seq<Token>, i: nat): (r: Result<Parsed<Expression>, ParseError>)
    requires InStream(t, i) && IsPostfixStart(t[i])
    ensures r.Ok? ==> i < r.value.next < |t|
    decreases |t| - i, 2
  {
    var tok := t[i];
    if tok.LeftBracket? then
      var index :- ExpressionAt(t, i + 1);
      var close :- ExpectAt(t, index.next, RightBracket);
      Ok(Parsed(Index(e, index.value), close))
    else if tok.Dot? then
      var name :- IdentifierAt(t, i + 1, Dot);
      Ok(Parsed(Property(e, name.value), name.next))
    else if tok.LeftParen? then CallAt(e, t, i)
    else if tok.PlusPlus? then Ok(Parsed(Increment(e), i + 1))
    else Ok(Parsed(Decrement(e), i + 1))
  }

  /** A call of `callee` at its `(`: `do_args`, then the `expect` of the `)` at which
      `do_args` stopped. */
  function CallAt(callee: Expression, t: seq<Token>, i: nat): (r: Result<Parsed<Expression>, ParseError>)
    requires InStream(t, i)
    ensures r.Ok? ==> i < r.value.next < |t| && t[r.value.next - 1].RightParen?
    decreases |t| - i, 1
  {
    var args :- ArgsAt(t, i);
    Ok(Parsed(FunctionCall(callee, args.value), args.next + 1))
  }

  /** The infix loop of `expression` (parser.rs:465-472), applied to the left operand `e`.
      It stops at a token that is not an infix operator; once it has taken an operator it
      stops where the right operand's own `expression` stopped. */
  function InfixAt(e: Expression, t: seq<Token>, i: nat): (r: Result<Parsed<Expression>, ParseError>)
    requires InStream(t, i)
    ensures r.Ok? ==> i <= r.value.next < |t| && InfixOperator(t[r.value.next]).None?
    ensures r.Ok? && r.value.next != i ==> !Continues(t[r.value.next])
    ensures InfixOperator(t[i]).None? ==> r == Ok(Parsed(e, i))
    decreases |t| - i, 0
  {
    match InfixOperator(t[i])
    case None => Ok(Parsed(e, i))
    case Some(op) =>
      var rhs :- ExpressionAt(t, i + 1);
      InfixAt(BinaryOp(e, op, rhs.value), t, rhs.next)
  }

  /** `do_args` (parser.rs:221-235): `(` and a comma-separated list, stopping at (not
      consuming) the `)`. */
  function ArgsAt(t: seq<Token>, i: nat): (r: Result<Parsed<seq<Expression>>, ParseError>)
    requires InStream(t, i)
    ensures r.Ok? ==> i < r.value.next < |t| && t[r.value.next].RightParen?
    decreases |t| - i, 0
  {
    var open :- ExpectAt(t, i, LeftParen);
    ElementsAt(t, open, RightParen)
  }

  /** The body shared by `do_args` and `do_array` (parser.rs:224-232, 239-247): nothing if
      `close` comes first, otherwise a list of expressions; it stops at `close`. */
  function ElementsAt(t: seq<Token>, i: nat, close: Token): (r: Result<Parsed<seq<Expression>>, ParseError>)
    requires InStream(t, i)
    ensures r.Ok? ==> i <= r.value.next < |t| && t[r.value.next] == close
    ensures t[i] == close ==> r == Ok(Parsed([], i))
    decreases |t| - i, 5
  {
    if t[i] == close then Ok(Parsed([], i)) else ElementListAt(t, i, close)
  }

  /** What follows an element of a list that ends at `close`: `true` at `close`, which is
      not consumed, and `false` after the comma that must come otherwise. */
  function SeparatorAt(t: seq<Token>, i: nat, close: Token): (r: Result<Parsed<bool>, ParseError>)
    requires InStream(t, i)
    ensures r.Ok? <==> t[i] == close || t[i].Comma?
    ensures r.Ok? ==> r.value.next < |t| && if t[i] == close then r.value == Parsed(true, i) else r.value == Parsed(false, i + 1)
    ensures r.Err? ==> r.error == Expected(Comma)
  {
    if t[i] == close then Ok(Parsed(true, i))
    else
      var comma :- ExpectAt(t, i, Comma);
      Ok(Parsed(false, comma))
  }

  /** One element of an argument or array list: an expression and what follows it. */
  function ElementAt(t: seq<Token>, i: nat, close: Token): (r: Result<Parsed<(Expression, bool)>, ParseError>)
    requires InStream(t, i)
    ensures r.Ok? ==> i < r.value.next < |t| && (r.value.value.1 ==> t[r.value.next] == close)
    decreases |t| - i, 3
  {
    var element :- ExpressionAt(t, i);
    var last :- SeparatorAt(t, element.next, close);
    Ok(Parsed((element.value, last.value), last.next))
  }

  /** The `loop` of `do_args` and `do_array`: elements up to the one `close` follows. */
  function ElementListAt(t: seq<Token>, i: nat, close: Token): (r: Result<Parsed<seq<Expression>>, ParseError>)
    requires InStream(t, i)
    ensures r.Ok? ==> i < r.value.next < |t| && t[r.value.next] == close && |r.value.value| > 0
    decreases |t| - i, 4
  {
    var first :- ElementAt(t, i, close);
    if first.value.1 then Ok(Parsed([first.value.0], first.next))
    else
      var rest :- ElementListAt(t, first.next, close);
      Ok(Parsed([first.value.0] + rest.value, rest.next))
  }

  /** `do_object` (parser.rs:252-279), started after the `{`: the properties and the closing
      `}`, which it consumes. */
  function ObjectAt(t: seq<Token>, i: nat): (r: Result<Parsed<seq<(string, Expression)>>, ParseError>)
    requires InStream(t, i)
    ensures r.Ok? ==> i < r.value.next < |t| && t[r.value.next - 1].RightBrace?
    decreases |t| - i, 2
  {
    if t[i].RightBrace? then Ok(Parsed([], i + 1))
    else
      var fields :- PropertiesAt(t, i);
      Ok(Parsed(fields.value, fields.next + 1))
  }

  /** A key of an object literal: a string literal or a bare name. */
  function KeyAt(t: seq<Token>, i: nat): (r: Result<Parsed<string>, ParseError>)
    requires InStream(t, i)
    ensures r.Ok? <==> t[i].StringLiteral? || t[i].Identifier?
    ensures r.Ok? ==> r.value.next == i + 1 < |t|
    ensures r.Err? ==> r.error == ExpectedKey(t[i])
  {
    if t[i].StringLiteral? then Ok(Parsed(t[i].text, i + 1))
    else if t[i].Identifier? then Ok(Parsed(t[i].name, i + 1))
    else Err(ExpectedKey(t[i]))
  }

  /** One property of an object literal: `key : expression`. */
  function PropertyAt(t: seq<Token>, i: nat): (r: Result<Parsed<(string, Expression)>, ParseError>)
    requires InStream(t, i)
    ensures r.Ok? ==> i + 2 < r.value.next < |t|
    decreases |t| - i, 0
  {
    var key :- KeyAt(t, i);
    var colon :- ExpectAt(t, key.next, Colon);
    var value :- ExpressionAt(t, colon);
    Ok(Parsed((key.value, value.value), value.next))
  }

  /** The `loop` of `do_object`: a property, then `}` (not consumed) or a comma. */
  function PropertiesAt(t: seq<Token>, i: nat): (r: Result<Parsed<seq<(string, Expression)>>, ParseError>)
    requires InStream(t, i)
    ensures r.Ok? ==> i < r.value.next < |t| && t[r.value.next].RightBrace? && |r.value.value| > 0
    decreases |t| - i, 1
  {
    var first :- PropertyAt(t, i);
    var last :- SeparatorAt(t, first.next, RightBrace);
    if last.value then Ok(Parsed([first.value], last.next))
    else
      var rest :- PropertiesAt(t, last.next);
      Ok(Parsed([first.value] + rest.value, rest.next))
  }

  // ---------------------------------------------------------------------------------------
  // Statements (parser.rs:41-219)

  /** `statement` at `i` (parser.rs:181-219): dispatch on the first token; anything that is
      not a keyword or `{` is an expression statement ended by `;`. */
  function StatementAt(t: seq<Token>, i: nat): (r: Result<Parsed<Statement>, ParseError>)
    requires InStream(t, i)
    ensures r.Ok? ==> i < r.value.next < |t|
    decreases |t| - i, 1
  {
    var tok := t[i];
    if tok.Return? then ReturnAt(t, i)
    else if tok.If? then IfAt(t, i)
    else if tok.Let? then LetAt(t, i)
    else if tok.While? then WhileAt(t, i)
    else if tok.For? then ForAt(t, i)
    else if tok.Function? then FunctionAt(t, i)
    else if tok.Break? then
      var semi :- ExpectAt(t, i + 1, Semicolon);
      Ok(Parsed(Statement.Break, semi))
    else if tok.Continue? then
      var semi :- ExpectAt(t, i + 1, Semicolon);
      Ok(Parsed(Statement.Continue, semi))
    else if tok.LeftBrace? then
      var body :- ScopeAt(t, i);
      Ok(Parsed(Statement.Scope(body.value), body.next))
    else
      var e :- TerminatedAt(t, i);
      Ok(Parsed(Statement.Expression(e.value), e.next))
  }

  /** An expression followed by the `;` that `statement`, `return` and `do_let` expect after
      it; the position is the one after the `;`. */
  function TerminatedAt(t: seq<Token>, i: nat): (r: Result<Parsed<Expression>, ParseError>)
    requires InStream(t, i)
    ensures r.Ok? ==> i + 1 < r.value.next < |t| && t[r.value.next - 1].Semicolon?
  {
    var e :- ExpressionAt(t, i);
    var semi :- ExpectAt(t, e.next, Semicolon);
    Ok(Parsed(e.value, semi))
  }

  /** The `return` arm of `statement` (parser.rs:183-193). `return;` leaves its `;` in place:
      the next statement starts at it. */
  function ReturnAt(t: seq<Token>, i: nat): (r: Result<Parsed<Statement>, ParseError>)
    requires InStream(t, i) && t[i].Return?
    ensures r.Ok? ==> i < r.value.next < |t|
  {
    if t[i + 1].Semicolon? then
      Ok(Parsed(Statement.Return(Expression.Literal(Literal.Undefined)), i + 1))
    else
      var value :- TerminatedAt(t, i + 1);
      Ok(Parsed(Statement.Return(value.value), value.next))
  }

  /** `do_if` (parser.rs:41-61), which consumes the `if` without looking at it again. */
  function IfAt(t: seq<Token>, i: nat): (r: Result<Parsed<Statement>, ParseError>)
    requires InStream(t, i) && t[i].If?
    ensures r.Ok? ==> i < r.value.next < |t|
    decreases |t| - i, 0
  {
    var condition :- ParenthesizedAt(t, i + 1);
    var consequence :- StatementAt(t, condition.next);
    var alternative :- ElseAt(t, consequence.next);
    Ok(Parsed(Statement.If(condition.value, consequence.value, alternative.value), alternative.next))
  }

  /** The optional `else` branch of `do_if`. */
  function ElseAt(t: seq<Token>, i: nat): (r: Result<Parsed<Option<Statement>>, ParseError>)
    requires InStream(t, i)
    ensures r.Ok? ==> i <= r.value.next < |t|
    ensures !t[i].Else? ==> r == Ok(Parsed(None, i))
    ensures r.Ok? && t[i].Else? ==> r.value.value.Some?
    decreases |t| - i, 2
  {
    if t[i].Else? then
      var alternative :- StatementAt(t, i + 1);
      Ok(Parsed(Some(alternative.value), alternative.next))
    else
      Ok(Parsed(None, i))
  }

  /** `do_let` (parser.rs:63-84): `let name;` binds `undefined`, `let name = e;` binds `e`. */
  function LetAt(t: seq<Token>, i: nat): (r: Result<Parsed<Statement>, ParseError>)
    requires InStream(t, i)
    ensures r.Ok? ==> i < r.value.next < |t|
  {
    var start :- ExpectAt(t, i, Token.Let);
    var name :- IdentifierAt(t, start, Token.Let);
    var value :- LetValueAt(t, name.next);
    Ok(Parsed(Statement.Let(name.value, value.value), value.next))
  }

  /** What follows the name in `do_let`: `;`, or `=`, an expression and `;`. */
  function LetValueAt(t: seq<Token>, i: nat): (r: Result<Parsed<Expression>, ParseError>)
    requires InStream(t, i)
    ensures r.Ok? ==> i < r.value.next < |t| && t[r.value.next - 1].Semicolon?
  {
    if t[i].Semicolon? then Ok(Parsed(Expression.Literal(Literal.Undefined), i + 1))
    else
      var eq :- ExpectAt(t, i, Token.Equal);
      TerminatedAt(t, eq)
  }

  /** `do_while` (parser.rs:86-96). */
  function WhileAt(t: seq<Token>, i: nat): (r: Result<Parsed<Statement>, ParseError>)
    requires InStream(t, i)
    ensures r.Ok? ==> i < r.value.next < |t|
    decreases |t| - i, 0
  {
    var start :- ExpectAt(t, i, Token.While);
    var condition :- ParenthesizedAt(t, start);
    var body :- StatementAt(t, condition.next);
    Ok(Parsed(Statement.While(condition.value, body.value), body.next))
  }

  /** `do_for` (parser.rs:98-131). */
  function ForAt(t: seq<Token>, i: nat): (r: Result<Parsed<Statement>, ParseError>)
    requires InStream(t, i)
    ensures r.Ok? ==> i < r.value.next < |t|
    decreases |t| - i, 0
  {
    var start :- ExpectAt(t, i, Token.For);
    var header :- ForHeaderAt(t, start);
    var body :- StatementAt(t, header.next);
    Ok(Parsed(Statement.For(header.value.0, header.value.1, header.value.2, body.value), body.next))
  }

  /** The parenthesized header of a `for`: initializer, condition and update. */
  function ForHeaderAt(t: seq<Token>, i: nat)
    : (r: Result<Parsed<(Option<Statement>, Option<Expression>, Option<Expression>)>, ParseError>)
    requires InStream(t, i)
    ensures r.Ok? ==> i + 2 < r.value.next < |t| && t[r.value.next - 1].RightParen?
    decreases |t| - i, 3
  {
    var open :- ExpectAt(t, i, LeftParen);
    var init :- ForInitAt(t, open);
    var clauses :- ForClausesAt(t, init.next);
    Ok(Parsed((init.value, clauses.value.0, clauses.value.1), clauses.next))
  }

  /** The initializer of a `for` header: a statement (which takes its own `;`), or a bare `;`. */
  function ForInitAt(t: seq<Token>, i: nat): (r: Result<Parsed<Option<Statement>>, ParseError>)
    requires InStream(t, i)
    ensures r.Ok? ==> i < r.value.next < |t|
    ensures t[i].Semicolon? ==> r == Ok(Parsed(None, i + 1))
    decreases |t| - i, 2
  {
    if !t[i].Semicolon? then
      var init :- StatementAt(t, i);
      Ok(Parsed(Some(init.value), init.next))
    else
      Ok(Parsed(None, i + 1))
  }

  /** The condition, the `;` after it, the update and the closing `)` of a `for` header. */
  function ForClausesAt(t: seq<Token>, i: nat): (r: Result<Parsed<(Option<Expression>, Option<Expression>)>, ParseError>)
    requires InStream(t, i)
    ensures r.Ok? ==> i + 1 < r.value.next < |t| && t[r.value.next - 1].RightParen?
  {
    var test :- OptionalExpressionAt(t, i);
    var semi :- ExpectAt(t, test.next, Semicolon);
    var update :- ForUpdateAt(t, semi);
    Ok(Parsed((test.value, update.value), update.next))
  }

  /** The update of a `for` header and the closing `)`. */
  function ForUpdateAt(t: seq<Token>, i: nat): (r: Result<Parsed<Option<Expression>>, ParseError>)
    requires InStream(t, i)
    ensures r.Ok? ==> i < r.value.next < |t| && t[r.value.next - 1].RightParen?
  {
    var update :- OptionalExpressionAt(t, i);
    var close :- ExpectAt(t, update.next, RightParen);
    Ok(Parsed(update.value, close))
  }

  /** The condition and the update of a `for` header: an expression unless the next token is
      `;`. The update is guarded by `;` too, although a `)` follows it. */
  function OptionalExpressionAt(t: seq<Token>, i: nat): (r: Result<Parsed<Option<Expression>>, ParseError>)
    requires InStream(t, i)
    ensures r.Ok? ==> i <= r.value.next < |t| && (r.value.value.None? <==> r.value.next == i)
    ensures t[i].Semicolon? <==> r == Ok(Parsed(None, i))
  {
    if !t[i].Semicolon? then
      var e :- ExpressionAt(t, i);
      Ok(Parsed(Some(e.value), e.next))
    else
      Ok(Parsed(None, i))
  }

  /** `do_function` (parser.rs:133-167): the name, the parameters and a scope as the body. */
  function FunctionAt(t: seq<Token>, i: nat): (r: Result<Parsed<Statement>, ParseError>)
    requires InStream(t, i)
    ensures r.Ok? ==> i < r.value.next < |t|
    decreases |t| - i, 0
  {
    var start :- ExpectAt(t, i, Token.Function);
    var name :- IdentifierAt(t, start, Token.Function);
    var params :- ParametersAt(t, name.next);
    var body :- ScopeAt(t, params.next);
    Ok(Parsed(Statement.Function(name.value, params.value, Statement.Scope(body.value)), body.next))
  }

  /** The parenthesized parameter list of `do_function`, with both parentheses. */
  function ParametersAt(t: seq<Token>, i: nat): (r: Result<Parsed<seq<string>>, ParseError>)
    requires InStream(t, i)
    ensures r.Ok? ==> i + 1 < r.value.next < |t| && t[r.value.next - 1].RightParen?
  {
    var open :- ExpectAt(t, i, LeftParen);
    if t[open].RightParen? then Ok(Parsed([], open + 1))
    else
      var names :- ParameterListAt(t, open);
      Ok(Parsed(names.value, names.next + 1))
  }

  /** The `loop` of the parameter list: a name, then `)` (not consumed) or a comma. */
  function ParameterListAt(t: seq<Token>, i: nat): (r: Result<Parsed<seq<string>>, ParseError>)
    requires InStream(t, i)
    ensures r.Ok? ==> i < r.value.next < |t| && t[r.value.next].RightParen? && |r.value.value| > 0
    decreases |t| - i
  {
    var param :- IdentifierAt(t, i, Token.Function);
    var last :- SeparatorAt(t, param.next, RightParen);
    if last.value then Ok(Parsed([param.value], last.next))
    else
      var rest :- ParameterListAt(t, last.next);
      Ok(Parsed([param.value] + rest.value, rest.next))
  }

  /** `do_scope` (parser.rs:169-178): `{`, statements, `}`. */
  function ScopeAt(t: seq<Token>, i: nat): (r: Result<Parsed<seq<Statement>>, ParseError>)
    requires InStream(t, i)
    ensures r.Ok? ==> i + 1 < r.value.next < |t| && t[r.value.next - 1].RightBrace?
    decreases |t| - i, 0
  {
    var open :- ExpectAt(t, i, LeftBrace);
    var body :- ScopeBodyAt(t, open);
    var close :- ExpectAt(t, body.next, RightBrace);
    Ok(Parsed(body.value, close))
  }

  /** The `while` loop of `do_scope`: statements until a `}` or an `EOF`, neither consumed. */
  function ScopeBodyAt(t: seq<Token>, i: nat): (r: Result<Parsed<seq<Statement>>, ParseError>)
    requires InStream(t, i)
    ensures r.Ok? ==> i <= r.value.next < |t| && (t[r.value.next].RightBrace? || t[r.value.next].EOF?)
    decreases |t| - i, 2
  {
    if t[i].RightBrace? || t[i].EOF? then Ok(Parsed([], i))
    else
      var first :- StatementAt(t, i);
      var rest :- ScopeBodyAt(t, first.next);
      Ok(Parsed([first.value] + rest.value, rest.next))
  }

  // ---------------------------------------------------------------------------------------
  // Programs (parser.rs:477-485, ast.rs:133-137)

  /** The loop of `parse` from `i`: statements until `done`. */
  function ProgramFrom(t: seq<Token>, i: nat): (r: Result<Parsed<seq<Statement>>, ParseError>)
    requires InStream(t, i)
    ensures r.Ok? ==> i <= r.value.next < |t| && t[r.value.next].EOF?
    ensures t[i].EOF? ==> r == Ok(Parsed([], i))
    decreases |t| - i
  {
    if t[i].EOF? then Ok(Parsed([], i))
    else
      var first :- StatementAt(t, i);
      var rest :- ProgramFrom(t, first.next);
      Ok(Parsed([first.value] + rest.value, rest.next))
  }

  /** `AST::new(tokens)`: a fresh parser at position 0, then `parse`. */
  function ParseProgram(t: seq<Token>): (r: Result<AST, ParseError>)
    requires EndsWithEof(t)
    ensures r.Ok? <==> ProgramFrom(t, 0).Ok?
  {
    var program :- ProgramFrom(t, 0);
    Ok(AST(program.value))
  }
}
