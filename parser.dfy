/** The `Parser` of src/parser/parser.rs: a token vector and a cursor `pos` that `consume` and
    `expect` advance. Each method is proved to compute what the reference function of the
    same role in module ParserSpec computes from the cursor at the call: on success the same
    value and the same final cursor, on a `panic!` the same error.

    Every method requires the cursor to be on a token of a stream that ends in `EOF`, as the
    source does when it indexes `tokens[pos]` without a check. Where the source calls `expect`
    on a token that the code just before has already seen (the `)` after `do_args`, the `]`
    after `do_array`, the `}` that ends `do_object`, the `;` of `let x;`), the `expect` cannot
    fail, and the method consumes that token directly. */
module Parsing {
  import opened Wrappers
  import opened Tokens
  import opened Ast
  import opened ParserSpec

  /** A method's result `r` and final cursor `pos` agree with the reference result `s`. */
  ghost predicate Agrees<T>(r: Result<T, ParseError>, pos: nat, s: Result<Parsed<T>, ParseError>)
  {
    if s.Ok? then r == Ok(s.value.value) && pos == s.value.next else r == Err(s.error)
  }

  /** `s` with `xs` put in front of the list it parsed: what a loop that has already
      collected `xs` will return. */
  function WithPrefix<T>(xs: seq<T>, s: Result<Parsed<seq<T>>, ParseError>): Result<Parsed<seq<T>>, ParseError>
  {
    if s.Ok? then Ok(Parsed(xs + s.value.value, s.value.next)) else s
  }

  lemma WithPrefixEmpty<T>(s: Result<Parsed<seq<T>>, ParseError>)
    ensures WithPrefix([], s) == s
  {
    if s.Ok? {
      assert [] + s.value.value == s.value.value;
    }
  }

  lemma WithPrefixAppend<T>(xs: seq<T>, x: T, s: Result<Parsed<seq<T>>, ParseError>)
    ensures WithPrefix(xs, WithPrefix([x], s)) == WithPrefix(xs + [x], s)
  {
    if s.Ok? {
      assert xs + ([x] + s.value.value) == (xs + [x]) + s.value.value;
    }
  }

  class Parser {
    const tokens: seq<Token>
    var pos: nat

    /** `Parser::new` (parser.rs:11-13). */
    constructor (tokens: seq<Token>)
      ensures this.tokens == tokens && pos == 0
    {
      this.tokens := tokens;
      pos := 0;
    }

    /** `done` (parser.rs:15-17). It reads `tokens[pos]` before it compares `pos` with the
        length, so it is only defined with the cursor on a token, and there it is the test
        for `EOF`. */
    function Done(): (b: bool)
      reads this
      requires pos < |tokens|
      ensures b <==> tokens[pos].EOF?
    {
      tokens[pos].EOF? || pos >= |tokens|
    }

    function Peek(): Token
      reads this
      requires pos < |tokens|
    {
      tokens[pos]
    }

    method Consume() returns (tok: Token)
      requires pos < |tokens|
      modifies this
      ensures tok == old(tokens[pos]) && pos == old(pos) + 1
    {
      tok := Peek();
      pos := pos + 1;
    }

    /** `expect` (parser.rs:33-39), with its panic as a failure. */
    method Expect(want: Token) returns (r: Outcome<ParseError>)
      requires InStream(tokens, pos)
      modifies this
      ensures match ExpectAt(tokens, old(pos), want)
              case Ok(next) => r == Pass && pos == next
              case Err(e) => r == Fail(e)
    {
      if Peek() == want {
        var _ := Consume();
        return Pass;
      }
      return Fail(Expected(want));
    }

    /** The `match self.consume() { Token::Identifier(name) => name, tok => panic!(…) }` that
        reads a name after `let`, `function` and `.`, and each parameter of a function. */
    method ConsumeIdentifier(after: Token) returns (r: Result<string, ParseError>)
      requires InStream(tokens, pos)
      modifies this
      ensures Agrees(r, pos, IdentifierAt(tokens, old(pos), after))
    {
      var tok := Consume();
      if tok.Identifier? {
        return Ok(tok.name);
      }
      return Err(ExpectedIdentifier(after, tok));
    }

    /** `match_infix_operators` (parser.rs:281-353): the operator under the cursor, consumed. */
    method MatchInfixOperators() returns (op: Option<BinaryOperator>)
      requires pos < |tokens|
      modifies this
      ensures op == InfixOperator(old(tokens[pos]))
      ensures pos == if op.Some? then old(pos) + 1 else old(pos)
    {
      op := InfixOperator(Peek());
      if op.Some? {
        var _ := Consume();
      }
    }

    // -------------------------------------------------------------------------------------
    // Expressions

    /** `expression` (parser.rs:355-475). */
    method ParseExpression() returns (r: Result<Expression, ParseError>)
      requires InStream(tokens, pos)
      modifies this
      ensures Agrees(r, pos, ExpressionAt(tokens, old(pos)))
      decreases |tokens| - pos, 3
    {
      var primary :- Primary();
      var expr :- Postfix(primary);
      if Peek().Equal? {
        var _ := Consume();
        var value :- ParseExpression();
        return Ok(Assignment(expr, value));
      }
      r := Infix(expr);
    }

    /** The postfix loop of `expression` (parser.rs:406-451), applied to `e`. */
    method Postfix(e: Expression) returns (r: Result<Expression, ParseError>)
      requires InStream(tokens, pos)
      modifies this
      ensures Agrees(r, pos, PostfixAt(e, tokens, old(pos)))
      decreases |tokens| - pos, 3
    {
      var expr := e;
      while IsPostfixStart(Peek())
        invariant InStream(tokens, pos) && old(pos) <= pos
        invariant PostfixAt(e, tokens, old(pos)) == PostfixAt(expr, tokens, pos)
        decreases |tokens| - pos
      {
        expr :- PostfixStep(expr);
      }
      return Ok(expr);
    }

    /** The infix loop of `expression` (parser.rs:465-472), applied to the left operand `e`. */
    method Infix(e: Expression) returns (r: Result<Expression, ParseError>)
      requires InStream(tokens, pos)
      modifies this
      ensures Agrees(r, pos, InfixAt(e, tokens, old(pos)))
      decreases |tokens| - pos, 1
    {
      var expr := e;
      ghost var q := pos;
      var op := MatchInfixOperators();
      while op.Some?
        invariant InStream(tokens, q) && old(pos) <= q
        invariant pos == if op.Some? then q + 1 else q
        invariant op == InfixOperator(tokens[q])
        invariant InfixAt(e, tokens, old(pos)) == InfixAt(expr, tokens, q)
        decreases |tokens| - pos
      {
        var rhs :- ParseExpression();
        expr := BinaryOp(expr, op.value, rhs);
        q := pos;
        op := MatchInfixOperators();
      }
      return Ok(expr);
    }

    /** The first `match self.consume()` of `expression` (parser.rs:357-403). */
    method Primary() returns (r: Result<Expression, ParseError>)
      requires InStream(tokens, pos)
      modifies this
      ensures Agrees(r, pos, PrimaryAt(tokens, old(pos)))
      decreases |tokens| - pos, 2
    {
      var tok := Consume();
      if tok.Number? {
        return Ok(Expression.Literal(Literal.Number(tok.value)));
      } else if tok.StringLiteral? {
        return Ok(Expression.Literal(Literal.String(tok.text)));
      } else if tok.Identifier? {
        if Peek().LeftParen? {
          r := Call(Expression.Identifier(tok.name));
        } else {
          return Ok(Expression.Identifier(tok.name));
        }
      } else if tok.True? {
        return Ok(Expression.Literal(Boolean(true)));
      } else if tok.False? {
        return Ok(Expression.Literal(Boolean(false)));
      } else if tok.Null? {
        return Ok(Expression.Literal(Literal.Null));
      } else if tok.Undefined? {
        return Ok(Expression.Literal(Literal.Undefined));
      } else if tok.LeftParen? {
        var inner :- ParseExpression();
        :- Expect(RightParen);
        return Ok(inner);
      } else if tok.LeftBracket? {
        var elements :- DoArray();
        var _ := Consume();
        return Ok(Expression.Array(elements));
      } else if tok.LeftBrace? {
        var properties :- DoObject();
        return Ok(Expression.Object(properties));
      } else if tok.Minus? {
        var operand :- ParseExpression();
        return Ok(UnaryOp(Negate, operand));
      } else if tok.Bang? {
        var operand :- ParseExpression();
        return Ok(UnaryOp(Not, operand));
      } else {
        return Err(UnexpectedToken(tok));
      }
    }

    /** One turn of the postfix loop of `expression` (parser.rs:407-449). */
    method PostfixStep(e: Expression) returns (r: Result<Expression, ParseError>)
      requires InStream(tokens, pos) && IsPostfixStart(tokens[pos])
      modifies this
      ensures Agrees(r, pos, PostfixStepAt(e, tokens, old(pos)))
      decreases |tokens| - pos, 2
    {
      var tok := Peek();
      if tok.LeftBracket? {
        var _ := Consume();
        var index :- ParseExpression();
        :- Expect(RightBracket);
        return Ok(Index(e, index));
      } else if tok.Dot? {
        var _ := Consume();
        var name :- ConsumeIdentifier(Dot);
        return Ok(Property(e, name));
      } else if tok.LeftParen? {
        r := Call(e);
      } else if tok.PlusPlus? {
        var _ := Consume();
        return Ok(Increment(e));
      } else {
        var _ := Consume();
        return Ok(Decrement(e));
      }
    }

    /** A call of `callee`: `do_args`, then the `)` at which it stopped. */
    method Call(callee: Expression) returns (r: Result<Expression, ParseError>)
      requires InStream(tokens, pos)
      modifies this
      ensures Agrees(r, pos, CallAt(callee, tokens, old(pos)))
      decreases |tokens| - pos, 1
    {
      var args :- DoArgs();
      var _ := Consume();
      return Ok(FunctionCall(callee, args));
    }

    /** `do_args` (parser.rs:221-235). */
    method DoArgs() returns (r: Result<seq<Expression>, ParseError>)
      requires InStream(tokens, pos)
      modifies this
      ensures Agrees(r, pos, ArgsAt(tokens, old(pos)))
      decreases |tokens| - pos, 0
    {
      var opening := Expect(LeftParen);
      if opening.Fail? {
        return Err(opening.error);
      }
      r := Elements(RightParen);
    }

    /** `do_array` (parser.rs:237-250), started after the `[`. */
    method DoArray() returns (r: Result<seq<Expression>, ParseError>)
      requires InStream(tokens, pos)
      modifies this
      ensures Agrees(r, pos, ElementsAt(tokens, old(pos), RightBracket))
      decreases |tokens| - pos, 7
    {
      r := Elements(RightBracket);
    }

    /** What follows an element: `close`, which ends the loop, or a comma. */
    method Separator(close: Token) returns (r: Result<bool, ParseError>)
      requires InStream(tokens, pos) && IsListEnd(close)
      modifies this
      ensures Agrees(r, pos, SeparatorAt(tokens, old(pos), close))
    {
      if Peek() == close {
        return Ok(true);
      }
      :- Expect(Comma);
      return Ok(false);
    }

    /** The body that `do_args` and `do_array` share: nothing if `close` comes first,
        otherwise the loop, which stops at (not after) `close`. */
    method Elements(close: Token) returns (r: Result<seq<Expression>, ParseError>)
      requires InStream(tokens, pos) && IsListEnd(close)
      modifies this
      ensures Agrees(r, pos, ElementsAt(tokens, old(pos), close))
      decreases |tokens| - pos, 6
    {
      if Peek() == close {
        return Ok([]);
      }
      r := ElementList(close);
    }

    /** One turn of the `loop` of `do_args` and `do_array`: an expression, then `close` or
        a comma. */
    method Element(close: Token) returns (r: Result<(Expression, bool), ParseError>)
      requires InStream(tokens, pos) && IsListEnd(close)
      modifies this
      ensures Agrees(r, pos, ElementAt(tokens, old(pos), close))
      decreases |tokens| - pos, 4
    {
      var element :- ParseExpression();
      var last :- Separator(close);
      return Ok((element, last));
    }

    /** The `loop` of `do_args` and `do_array`. */
    method ElementList(close: Token) returns (r: Result<seq<Expression>, ParseError>)
      requires InStream(tokens, pos) && IsListEnd(close)
      modifies this
      ensures Agrees(r, pos, ElementListAt(tokens, old(pos), close))
      decreases |tokens| - pos, 5
    {
      var elements := [];
      WithPrefixEmpty(ElementListAt(tokens, pos, close));
      while true
        invariant InStream(tokens, pos) && old(pos) <= pos
        invariant ElementListAt(tokens, old(pos), close) == WithPrefix(elements, ElementListAt(tokens, pos, close))
        decreases |tokens| - pos
      {
        ghost var before := elements;
        var element :- Element(close);
        elements := elements + [element.0];
        if element.1 {
          return Ok(elements);
        }
        WithPrefixAppend(before, element.0, ElementListAt(tokens, pos, close));
      }
    }

    /** `do_object` (parser.rs:252-279), started after the `{`. */
    method DoObject() returns (r: Result<seq<(string, Expression)>, ParseError>)
      requires InStream(tokens, pos)
      modifies this
      ensures Agrees(r, pos, ObjectAt(tokens, old(pos)))
      decreases |tokens| - pos, 2
    {
      var properties := [];
      if !Peek().RightBrace? {
        WithPrefixEmpty(PropertiesAt(tokens, pos));
        while true
          invariant InStream(tokens, pos) && old(pos) <= pos
          invariant PropertiesAt(tokens, old(pos)) == WithPrefix(properties, PropertiesAt(tokens, pos))
          decreases |tokens| - pos
        {
          ghost var before := properties;
          var property :- ObjectProperty();
          properties := properties + [property];
          var last :- Separator(RightBrace);
          if last {
            break;
          }
          WithPrefixAppend(before, property, PropertiesAt(tokens, pos));
        }
      }
      var _ := Consume();
      return Ok(properties);
    }

    /** One `key : value` of `do_object`. */
    method ObjectProperty() returns (r: Result<(string, Expression), ParseError>)
      requires InStream(tokens, pos)
      modifies this
      ensures Agrees(r, pos, PropertyAt(tokens, old(pos)))
      decreases |tokens| - pos, 1
    {
      var tok := Consume();
      var key;
      if tok.StringLiteral? {
        key := tok.text;
      } else if tok.Identifier? {
        key := tok.name;
      } else {
        return Err(ExpectedKey(tok));
      }
      :- Expect(Colon);
      var value :- ParseExpression();
      return Ok((key, value));
    }

    /** `( expression )`: the condition of `do_if` and `do_while`. */
    method Parenthesized() returns (r: Result<Expression, ParseError>)
      requires InStream(tokens, pos)
      modifies this
      ensures Agrees(r, pos, ParenthesizedAt(tokens, old(pos)))
    {
      var opening := Expect(LeftParen);
      if opening.Fail? {
        return Err(opening.error);
      }
      var inner :- ParseExpression();
      :- Expect(RightParen);
      return Ok(inner);
    }

    // -------------------------------------------------------------------------------------
    // Statements

    /** `statement` (parser.rs:181-219). */
    method ParseStatement() returns (r: Result<Statement, ParseError>)
      requires InStream(tokens, pos)
      modifies this
      ensures Agrees(r, pos, StatementAt(tokens, old(pos)))
      decreases |tokens| - pos, 1
    {
      var tok := Peek();
      if tok.Return? {
        r := ReturnStatement();
      } else if tok.If? {
        r := DoIf();
      } else if tok.Let? {
        r := DoLet();
      } else if tok.While? {
        r := DoWhile();
      } else if tok.For? {
        r := DoFor();
      } else if tok.Function? {
        r := DoFunction();
      } else if tok.Break? {
        var _ := Consume();
        :- Expect(Semicolon);
        return Ok(Statement.Break);
      } else if tok.Continue? {
        var _ := Consume();
        :- Expect(Semicolon);
        return Ok(Statement.Continue);
      } else if tok.LeftBrace? {
        var statements :- DoScope();
        return Ok(Statement.Scope(statements));
      } else {
        var expr :- Terminated();
        return Ok(Statement.Expression(expr));
      }
    }

    /** An expression and the `;` expected after it. */
    method Terminated() returns (r: Result<Expression, ParseError>)
      requires InStream(tokens, pos)
      modifies this
      ensures Agrees(r, pos, TerminatedAt(tokens, old(pos)))
    {
      var expr :- ParseExpression();
      :- Expect(Semicolon);
      return Ok(expr);
    }

    /** The `Token::Return` arm of `statement` (parser.rs:183-193). */
    method ReturnStatement() returns (r: Result<Statement, ParseError>)
      requires InStream(tokens, pos) && tokens[pos].Return?
      modifies this
      ensures Agrees(r, pos, ReturnAt(tokens, old(pos)))
    {
      var _ := Consume();
      if Peek().Semicolon? {
        return Ok(Statement.Return(Expression.Literal(Literal.Undefined)));
      }
      var expr :- Terminated();
      return Ok(Statement.Return(expr));
    }

    /** `do_if` (parser.rs:41-61). */
    method DoIf() returns (r: Result<Statement, ParseError>)
      requires InStream(tokens, pos) && tokens[pos].If?
      modifies this
      ensures Agrees(r, pos, IfAt(tokens, old(pos)))
      decreases |tokens| - pos, 0
    {
      var _ := Consume();
      var condition :- Parenthesized();
      var consequence :- ParseStatement();
      var alternative :- Alternative();
      return Ok(Statement.If(condition, consequence, alternative));
    }

    /** The optional `else` of `do_if`. */
    method Alternative() returns (r: Result<Option<Statement>, ParseError>)
      requires InStream(tokens, pos)
      modifies this
      ensures Agrees(r, pos, ElseAt(tokens, old(pos)))
      decreases |tokens| - pos, 2
    {
      if Peek().Else? {
        var _ := Consume();
        var alternative :- ParseStatement();
        return Ok(Some(alternative));
      }
      return Ok(None);
    }

    /** `do_let` (parser.rs:63-84). */
    method DoLet() returns (r: Result<Statement, ParseError>)
      requires InStream(tokens, pos)
      modifies this
      ensures Agrees(r, pos, LetAt(tokens, old(pos)))
    {
      var opening := Expect(Token.Let);
      if opening.Fail? {
        return Err(opening.error);
      }
      var name :- ConsumeIdentifier(Token.Let);
      var value :- LetValue();
      return Ok(Statement.Let(name, value));
    }

    /** The value of `do_let` and the `;` after it. With no `=`, the `;` has just been seen, so
        its `expect` cannot fail. */
    method LetValue() returns (r: Result<Expression, ParseError>)
      requires InStream(tokens, pos)
      modifies this
      ensures Agrees(r, pos, LetValueAt(tokens, old(pos)))
    {
      if Peek().Semicolon? {
        var _ := Consume();
        return Ok(Expression.Literal(Literal.Undefined));
      }
      :- Expect(Token.Equal);
      r := Terminated();
    }

    /** `do_while` (parser.rs:86-96). */
    method DoWhile() returns (r: Result<Statement, ParseError>)
      requires InStream(tokens, pos)
      modifies this
      ensures Agrees(r, pos, WhileAt(tokens, old(pos)))
      decreases |tokens| - pos, 0
    {
      var opening := Expect(Token.While);
      if opening.Fail? {
        return Err(opening.error);
      }
      var condition :- Parenthesized();
      var body :- ParseStatement();
      return Ok(Statement.While(condition, body));
    }

    /** `do_for` (parser.rs:98-131). */
    method DoFor() returns (r: Result<Statement, ParseError>)
      requires InStream(tokens, pos)
      modifies this
      ensures Agrees(r, pos, ForAt(tokens, old(pos)))
      decreases |tokens| - pos, 0
    {
      var opening := Expect(Token.For);
      if opening.Fail? {
        return Err(opening.error);
      }
      var header :- ForHeader();
      var body :- ParseStatement();
      return Ok(Statement.For(header.0, header.1, header.2, body));
    }

    /** The header of `do_for`, from its `(` to its `)`. */
    method ForHeader() returns (r: Result<(Option<Statement>, Option<Expression>, Option<Expression>), ParseError>)
      requires InStream(tokens, pos)
      modifies this
      ensures Agrees(r, pos, ForHeaderAt(tokens, old(pos)))
      decreases |tokens| - pos, 3
    {
      var opening := Expect(LeftParen);
      if opening.Fail? {
        return Err(opening.error);
      }
      var init :- ForInit();
      var clauses :- ForClauses();
      return Ok((init, clauses.0, clauses.1));
    }

    /** The initializer of `do_for`. A bare `;` has just been seen, so its `expect` cannot
        fail. */
    method ForInit() returns (r: Result<Option<Statement>, ParseError>)
      requires InStream(tokens, pos)
      modifies this
      ensures Agrees(r, pos, ForInitAt(tokens, old(pos)))
      decreases |tokens| - pos, 2
    {
      if !Peek().Semicolon? {
        var init :- ParseStatement();
        return Ok(Some(init));
      }
      var _ := Consume();
      return Ok(None);
    }

    /** The condition of `do_for`, its `;`, the update and the `)`. */
    method ForClauses() returns (r: Result<(Option<Expression>, Option<Expression>), ParseError>)
      requires InStream(tokens, pos)
      modifies this
      ensures Agrees(r, pos, ForClausesAt(tokens, old(pos)))
    {
      var test :- OptionalExpression();
      :- Expect(Semicolon);
      var update :- ForUpdate();
      return Ok((test, update));
    }

    /** The update of `do_for` and the `)` after it. */
    method ForUpdate() returns (r: Result<Option<Expression>, ParseError>)
      requires InStream(tokens, pos)
      modifies this
      ensures Agrees(r, pos, ForUpdateAt(tokens, old(pos)))
    {
      var update :- OptionalExpression();
      :- Expect(RightParen);
      return Ok(update);
    }

    /** `if self.peek() != Token::Semicolon { Some(self.expression()) } else { None }`. */
    method OptionalExpression() returns (r: Result<Option<Expression>, ParseError>)
      requires InStream(tokens, pos)
      modifies this
      ensures Agrees(r, pos, OptionalExpressionAt(tokens, old(pos)))
    {
      if !Peek().Semicolon? {
        var e :- ParseExpression();
        return Ok(Some(e));
      }
      return Ok(None);
    }

    /** `do_function` (parser.rs:133-167). */
    method DoFunction() returns (r: Result<Statement, ParseError>)
      requires InStream(tokens, pos)
      modifies this
      ensures Agrees(r, pos, FunctionAt(tokens, old(pos)))
      decreases |tokens| - pos, 0
    {
      var opening := Expect(Token.Function);
      if opening.Fail? {
        return Err(opening.error);
      }
      var name :- ConsumeIdentifier(Token.Function);
      var params :- Parameters();
      var body :- DoScope();
      return Ok(Statement.Function(name, params, Statement.Scope(body)));
    }

    /** The parameter list of `do_function`, with both parentheses. The `)` that ends the list
        has just been seen, so its `expect` cannot fail. */
    method Parameters() returns (r: Result<seq<string>, ParseError>)
      requires InStream(tokens, pos)
      modifies this
      ensures Agrees(r, pos, ParametersAt(tokens, old(pos)))
    {
      var opening := Expect(LeftParen);
      if opening.Fail? {
        return Err(opening.error);
      }
      var params := [];
      if !Peek().RightParen? {
        params :- ParameterList();
      }
      var _ := Consume();
      return Ok(params);
    }

    /** The `loop` of the parameter list: names separated by commas, up to the `)`. */
    method ParameterList() returns (r: Result<seq<string>, ParseError>)
      requires InStream(tokens, pos)
      modifies this
      ensures Agrees(r, pos, ParameterListAt(tokens, old(pos)))
    {
      var params := [];
      WithPrefixEmpty(ParameterListAt(tokens, pos));
      while true
        invariant InStream(tokens, pos) && old(pos) <= pos
        invariant ParameterListAt(tokens, old(pos)) == WithPrefix(params, ParameterListAt(tokens, pos))
        decreases |tokens| - pos
      {
        ghost var before := params;
        var param :- ConsumeIdentifier(Token.Function);
        params := params + [param];
        var last :- Separator(RightParen);
        if last {
          return Ok(params);
        }
        WithPrefixAppend(before, param, ParameterListAt(tokens, pos));
      }
    }

    /** `do_scope` (parser.rs:169-178). */
    method DoScope() returns (r: Result<seq<Statement>, ParseError>)
      requires InStream(tokens, pos)
      modifies this
      ensures Agrees(r, pos, ScopeAt(tokens, old(pos)))
      decreases |tokens| - pos, 0
    {
      var opening := Expect(LeftBrace);
      if opening.Fail? {
        return Err(opening.error);
      }
      var statements :- ScopeBody();
      :- Expect(RightBrace);
      return Ok(statements);
    }

    /** The `while` loop of `do_scope`: statements until `}` or the end of the tokens. */
    method ScopeBody() returns (r: Result<seq<Statement>, ParseError>)
      requires InStream(tokens, pos)
      modifies this
      ensures Agrees(r, pos, ScopeBodyAt(tokens, old(pos)))
      decreases |tokens| - pos, 2
    {
      var statements := [];
      WithPrefixEmpty(ScopeBodyAt(tokens, pos));
      while !Peek().RightBrace? && !Done()
        invariant InStream(tokens, pos) && old(pos) <= pos
        invariant ScopeBodyAt(tokens, old(pos)) == WithPrefix(statements, ScopeBodyAt(tokens, pos))
        decreases |tokens| - pos
      {
        ghost var before := statements;
        var statement :- ParseStatement();
        statements := statements + [statement];
        WithPrefixAppend(before, statement, ScopeBodyAt(tokens, pos));
      }
      assert statements + [] == statements;
      return Ok(statements);
    }

    // -------------------------------------------------------------------------------------
    // Programs

    /** `parse` (parser.rs:477-485): statements until `done`. */
    method Parse() returns (r: Result<seq<Statement>, ParseError>)
      requires InStream(tokens, pos)
      modifies this
      ensures Agrees(r, pos, ProgramFrom(tokens, old(pos)))
    {
      var statements := [];
      WithPrefixEmpty(ProgramFrom(tokens, pos));
      while !Done()
        invariant InStream(tokens, pos) && old(pos) <= pos
        invariant ProgramFrom(tokens, old(pos)) == WithPrefix(statements, ProgramFrom(tokens, pos))
        decreases |tokens| - pos
      {
        ghost var before := statements;
        var statement :- ParseStatement();
        statements := statements + [statement];
        WithPrefixAppend(before, statement, ProgramFrom(tokens, pos));
      }
      assert statements + [] == statements;
      return Ok(statements);
    }
  }

  /** `AST::new` (ast.rs:133-137): a parser over the tokens, then `parse`. */
  method NewAst(tokens: seq<Token>) returns (r: Result<AST, ParseError>)
    requires EndsWithEof(tokens)
    ensures r == ParseProgram(tokens)
  {
    var parser := new Parser(tokens);
    var statements :- parser.Parse();
    return Ok(AST(statements));
  }
}
