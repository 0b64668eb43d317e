/** Properties of the reference parser (module ParserSpec), which the `Parser` class is proved
    to compute: how operators nest, and the behaviour of the statement forms at their edges. */
module ParserFacts {
  import opened Wrappers
  import opened Tokens
  import opened Ast
  import opened ParserSpec
  import opened Lexing
  import opened LexerFacts

  /** The lexer's output is always a valid input for the parser. */
  lemma LexedTokensEndWithEof(s: seq<char>)
    ensures Tokenize(s).Ok? ==> EndsWithEof(Tokenize(s).value)
  {
    TokenizeEndsWithEof(s);
  }

  // ---------------------------------------------------------------------------------------
  // Expressions

  /** What `expression` makes of `e` followed by the operator at `i`: `e` combined with the
      whole expression after the operator. */
  function Combined(e: Expression, op: BinaryOperator, rhs: Result<Parsed<Expression>, ParseError>)
    : Result<Parsed<Expression>, ParseError>
  {
    match rhs
    case Ok(p) => Ok(Parsed(BinaryOp(e, op, p.value), p.next))
    case Err(err) => Err(err)
  }

  /** The infix loop takes one operator only: its right operand is the whole expression that
      follows, which stops where no operator can continue it. So there is no precedence, and
      every chain of binary operators nests to the right. */
  lemma {:induction false} InfixTakesRest(e: Expression, t: seq<Token>, i: nat)
    requires InStream(t, i) && InfixOperator(t[i]).Some?
    ensures InfixAt(e, t, i) == Combined(e, InfixOperator(t[i]).value, ExpressionAt(t, i + 1))
  {
    var rhs := ExpressionAt(t, i + 1);
    if rhs.Ok? {
      assert !Continues(t[rhs.value.next]);
      assert InfixAt(BinaryOp(e, InfixOperator(t[i]).value, rhs.value.value), t, rhs.value.next)
        == Ok(Parsed(BinaryOp(e, InfixOperator(t[i]).value, rhs.value.value), rhs.value.next));
    }
  }

  /** An expression whose primary part is followed by a binary operator is that primary part
      combined with everything after the operator. */
  lemma {:induction false} BinaryNestsRight(t: seq<Token>, i: nat)
    requires InStream(t, i) && PrimaryAt(t, i).Ok?
    requires InfixOperator(t[PrimaryAt(t, i).value.next]).Some?
    ensures var p := PrimaryAt(t, i).value;
            ExpressionAt(t, i) == Combined(p.value, InfixOperator(t[p.next]).value, ExpressionAt(t, p.next + 1))
  {
    var p := PrimaryAt(t, i).value;
    assert PostfixAt(p.value, t, p.next) == Ok(Parsed(p.value, p.next));
    InfixTakesRest(p.value, t, p.next);
  }

  /** A primary part that nothing can continue is the whole expression. */
  lemma {:induction false} PrimaryAlone(t: seq<Token>, i: nat)
    requires InStream(t, i) && PrimaryAt(t, i).Ok? && !Continues(t[PrimaryAt(t, i).value.next])
    ensures ExpressionAt(t, i) == PrimaryAt(t, i)
  {
    var p := PrimaryAt(t, i).value;
    assert PostfixAt(p.value, t, p.next) == Ok(Parsed(p.value, p.next));
    assert InfixAt(p.value, t, p.next) == Ok(Parsed(p.value, p.next));
  }

  /** A prefix `-` or `!` applies to the whole expression after it, operators included:
      `-a + b` is `-(a + b)`. */
  lemma {:induction false} UnaryTakesRest(t: seq<Token>, i: nat)
    requires InStream(t, i) && (t[i].Minus? || t[i].Bang?)
    ensures var op := if t[i].Minus? then Negate else Not;
            ExpressionAt(t, i) ==
              match ExpressionAt(t, i + 1)
              case Ok(p) => Ok(Parsed(UnaryOp(op, p.value), p.next))
              case Err(err) => Err(err)
  {
    var op := if t[i].Minus? then Negate else Not;
    assert PrimaryAt(t, i) == UnaryAt(op, t, i + 1);
    if PrimaryAt(t, i).Ok? {
      PrimaryAlone(t, i);
    }
  }

  /** Any primary part with its postfix chain becomes the target of an assignment when `=`
      follows it: the target is not checked, and the value is the whole expression after `=`,
      so `a = b = c` is `a = (b = c)`. */
  lemma AssignmentTakesRest(t: seq<Token>, i: nat)
    requires InStream(t, i) && PrimaryAt(t, i).Ok?
    requires PostfixAt(PrimaryAt(t, i).value.value, t, PrimaryAt(t, i).value.next).Ok?
    requires t[PostfixAt(PrimaryAt(t, i).value.value, t, PrimaryAt(t, i).value.next).value.next].Equal?
    ensures var q := PostfixAt(PrimaryAt(t, i).value.value, t, PrimaryAt(t, i).value.next).value;
            ExpressionAt(t, i) ==
              match ExpressionAt(t, q.next + 1)
              case Ok(p) => Ok(Parsed(Assignment(q.value, p.value), p.next))
              case Err(err) => Err(err)
  {
  }

  /** `1 = 2` parses, as an assignment to a number. */
  lemma UncheckedTargetExample(t: seq<Token>)
    requires t == [Token.Number(1), Token.Equal, Token.Number(2), EOF]
    ensures ExpressionAt(t, 0) == Ok(Parsed(Assignment(Num(1), Num(2)), 3))
  {
    assert PrimaryAt(t, 0) == Ok(Parsed(Num(1), 1));
    assert PostfixAt(Num(1), t, 1) == Ok(Parsed(Num(1), 1));
    assert PrimaryAt(t, 2) == Ok(Parsed(Num(2), 3));
    PrimaryAlone(t, 2);
    AssignmentTakesRest(t, 0);
  }

  /** A name directly followed by `(` is a call whose callee is that name, with the
      arguments of `do_args`. */
  lemma IdentifierCall(t: seq<Token>, i: nat)
    requires InStream(t, i) && t[i].Identifier? && t[i + 1].LeftParen?
    ensures PrimaryAt(t, i).Ok? <==> ArgsAt(t, i + 1).Ok?
    ensures PrimaryAt(t, i).Ok? ==>
      PrimaryAt(t, i).value == Parsed(FunctionCall(Expression.Identifier(t[i].name), ArgsAt(t, i + 1).value.value),
                                      ArgsAt(t, i + 1).value.next + 1)
  {
  }

  /** One postfix step wraps the expression built so far: `[` indexes it, `.` takes the named
      property of it, `(` calls it, and `++`/`--` increment or decrement it. */
  lemma PostfixStepWraps(e: Expression, t: seq<Token>, i: nat)
    requires InStream(t, i) && IsPostfixStart(t[i]) && PostfixStepAt(e, t, i).Ok?
    ensures var x := PostfixStepAt(e, t, i).value.value;
            && (t[i].LeftBracket? ==> x.Index? && x.target == e)
            && (t[i].Dot? ==> t[i + 1].Identifier? && x == Property(e, t[i + 1].name))
            && (t[i].LeftParen? ==> x.FunctionCall? && x.callee == e)
            && (t[i].PlusPlus? ==> x == Increment(e))
            && (t[i].MinusMinus? ==> x == Decrement(e))
  {
  }

  /** `x` is `e` with some postfix operators applied to it, `e` innermost. */
  predicate Wraps(x: Expression, e: Expression)
    decreases x
  {
    x == e ||
    match x
    case Index(target, _) => Wraps(target, e)
    case Property(target, _) => Wraps(target, e)
    case FunctionCall(callee, _) => Wraps(callee, e)
    case Increment(target) => Wraps(target, e)
    case Decrement(target) => Wraps(target, e)
    case _ => false
  }

  lemma {:induction false} WrapsTransitive(x: Expression, y: Expression, e: Expression)
    requires Wraps(x, y) && Wraps(y, e)
    ensures Wraps(x, e)
    decreases x
  {
    if x != y {
      match x
      case Index(target, _) => WrapsTransitive(target, y, e);
      case Property(target, _) => WrapsTransitive(target, y, e);
      case FunctionCall(callee, _) => WrapsTransitive(callee, y, e);
      case Increment(target) => WrapsTransitive(target, y, e);
      case Decrement(target) => WrapsTransitive(target, y, e);
    }
  }

  /** A postfix chain builds from left to right: each operator wraps what the ones before it
      made, so the expression the chain started from is innermost. */
  lemma {:induction false} PostfixChainWraps(e: Expression, t: seq<Token>, i: nat)
    requires InStream(t, i) && PostfixAt(e, t, i).Ok?
    ensures Wraps(PostfixAt(e, t, i).value.value, e)
    decreases |t| - i
  {
    if IsPostfixStart(t[i]) {
      var step := PostfixStepAt(e, t, i).value;
      PostfixStepWraps(e, t, i);
      assert Wraps(step.value, e);
      PostfixChainWraps(step.value, t, step.next);
      WrapsTransitive(PostfixAt(e, t, i).value.value, step.value, e);
    }
  }

  function Num(n: nat): Expression
  {
    Expression.Literal(Literal.Number(n))
  }

  function Name(s: string): Expression
  {
    Expression.Identifier(s)
  }

  /** `2 * 3 + 1` is `2 * (3 + 1)`. */
  lemma RightNestingExample(t: seq<Token>)
    requires t == [Token.Number(2), Star, Token.Number(3), Plus, Token.Number(1), EOF]
    ensures ExpressionAt(t, 0) == Ok(Parsed(BinaryOp(Num(2), Mul, BinaryOp(Num(3), Add, Num(1))), 5))
  {
    assert PrimaryAt(t, 4) == Ok(Parsed(Num(1), 5));
    PrimaryAlone(t, 4);
    assert PrimaryAt(t, 2) == Ok(Parsed(Num(3), 3));
    BinaryNestsRight(t, 2);
    assert PrimaryAt(t, 0) == Ok(Parsed(Num(2), 1));
    BinaryNestsRight(t, 0);
  }

  /** `-a + b` is `-(a + b)`. */
  lemma NegationExample(t: seq<Token>)
    requires t == [Minus, Token.Identifier("a"), Plus, Token.Identifier("b"), EOF]
    ensures ExpressionAt(t, 0) == Ok(Parsed(UnaryOp(Negate, BinaryOp(Name("a"), Add, Name("b"))), 4))
  {
    assert PrimaryAt(t, 3) == Ok(Parsed(Name("b"), 4));
    PrimaryAlone(t, 3);
    assert PrimaryAt(t, 1) == Ok(Parsed(Name("a"), 2));
    BinaryNestsRight(t, 1);
    UnaryTakesRest(t, 0);
  }

  /** A primary part `p` and its postfix operators, giving `q`, that nothing can continue are
      the whole expression. */
  lemma {:induction false} PostfixAlone(t: seq<Token>, i: nat, p: Parsed<Expression>, q: Parsed<Expression>)
    requires InStream(t, i) && PrimaryAt(t, i) == Ok(p)
    requires PostfixAt(p.value, t, p.next) == Ok(q) && !Continues(t[q.next])
    ensures ExpressionAt(t, i) == Ok(q)
  {
    assert InfixAt(q.value, t, q.next) == Ok(Parsed(q.value, q.next));
  }

  /** The tokens of `a[i].b(c)`. */
  predicate IsChain(t: seq<Token>)
  {
    t == [Token.Identifier("a"), LeftBracket, Token.Identifier("i"), RightBracket, Dot, Token.Identifier("b"),
          LeftParen, Token.Identifier("c"), RightParen, EOF]
  }

  lemma ChainArguments(t: seq<Token>)
    requires IsChain(t)
    ensures ArgsAt(t, 6) == Ok(Parsed([Name("c")], 8))
  {
    assert PrimaryAt(t, 7) == Ok(Parsed(Name("c"), 8));
    PrimaryAlone(t, 7);
    assert ElementAt(t, 7, RightParen) == Ok(Parsed((Name("c"), true), 8));
    assert ElementListAt(t, 7, RightParen) == Ok(Parsed([Name("c")], 8));
  }

  lemma ChainIndex(t: seq<Token>)
    requires IsChain(t)
    ensures PostfixStepAt(Name("a"), t, 1) == Ok(Parsed(Index(Name("a"), Name("i")), 4))
  {
    assert PrimaryAt(t, 2) == Ok(Parsed(Name("i"), 3));
    PrimaryAlone(t, 2);
  }

  /** The `.b(c)` that follows `a[i]`. */
  lemma ChainSuffix(t: seq<Token>, indexed: Expression)
    requires IsChain(t)
    ensures PostfixAt(indexed, t, 4) == Ok(Parsed(FunctionCall(Property(indexed, "b"), [Name("c")]), 9))
  {
    var call := FunctionCall(Property(indexed, "b"), [Name("c")]);
    assert PostfixStepAt(indexed, t, 4) == Ok(Parsed(Property(indexed, "b"), 6));
    ChainArguments(t);
    assert PostfixStepAt(Property(indexed, "b"), t, 6) == Ok(Parsed(call, 9));
    assert PostfixAt(Property(indexed, "b"), t, 6) == Ok(Parsed(call, 9));
  }

  /** Postfix operators apply from left to right to the primary part: `a[i].b(c)` calls the
      property `b` of `a[i]`. */
  lemma PostfixChainExample(t: seq<Token>)
    requires IsChain(t)
    ensures ExpressionAt(t, 0) == Ok(Parsed(FunctionCall(Property(Index(Name("a"), Name("i")), "b"), [Name("c")]), 9))
  {
    var indexed := Index(Name("a"), Name("i"));
    ChainIndex(t);
    ChainSuffix(t, indexed);
    assert PostfixAt(Name("a"), t, 1) == PostfixAt(indexed, t, 4);
    assert PrimaryAt(t, 0) == Ok(Parsed(Name("a"), 1));
    PostfixAlone(t, 0, Parsed(Name("a"), 1), Parsed(FunctionCall(Property(indexed, "b"), [Name("c")]), 9));
  }

  // ---------------------------------------------------------------------------------------
  // Statements

  /** `if` must be followed by `(`: `do_if` expects it straight after the keyword. */
  lemma IfNeedsParens(t: seq<Token>, i: nat)
    requires InStream(t, i) && t[i].If? && !t[i + 1].LeftParen?
    ensures IfAt(t, i) == Err(Expected(LeftParen))
  {
  }

  /** `return e;` is the expression followed by `;`, and consumes that `;`. */
  lemma ReturnValueTakesSemicolon(t: seq<Token>, i: nat)
    requires InStream(t, i) && t[i].Return? && !t[i + 1].Semicolon?
    ensures ReturnAt(t, i) ==
              match TerminatedAt(t, i + 1)
              case Ok(e) => Ok(Parsed(Statement.Return(e.value), e.next))
              case Err(err) => Err(err)
    ensures ReturnAt(t, i).Ok? ==> t[ReturnAt(t, i).value.next - 1].Semicolon?
  {
  }

  /** `return;` leaves its `;` in place, and no statement starts with `;`: in a statement list
      (the program or a block) a `return` without a value makes the list fail to parse. */
  lemma {:induction false} ReturnWithoutValueFails(t: seq<Token>, i: nat)
    requires InStream(t, i) && t[i].Return? && t[i + 1].Semicolon?
    ensures StatementAt(t, i) == Ok(Parsed(Statement.Return(Expression.Literal(Literal.Undefined)), i + 1))
    ensures StatementAt(t, i + 1) == Err(UnexpectedToken(Semicolon))
    ensures ProgramFrom(t, i) == Err(UnexpectedToken(Semicolon))
    ensures ScopeBodyAt(t, i) == Err(UnexpectedToken(Semicolon))
  {
    assert PrimaryAt(t, i + 1) == Err(UnexpectedToken(Semicolon));
    assert TerminatedAt(t, i + 1) == Err(UnexpectedToken(Semicolon));
  }

  /** A `{` at the start of a statement always opens a block, so an object literal cannot
      start an expression statement. */
  lemma BraceOpensBlock(t: seq<Token>, i: nat)
    requires InStream(t, i) && t[i].LeftBrace?
    ensures StatementAt(t, i) ==
              match ScopeAt(t, i)
              case Ok(body) => Ok(Parsed(Statement.Scope(body.value), body.next))
              case Err(err) => Err(err)
  {
  }

  /** `{ a: 1 }` at the start of a statement is a block whose first statement `a` lacks its
      `;`. */
  lemma {:induction false} ObjectStatementFails(t: seq<Token>, i: nat)
    requires InStream(t, i) && t[i].LeftBrace? && t[i + 1].Identifier? && t[i + 2].Colon?
    ensures StatementAt(t, i) == Err(Expected(Semicolon))
  {
    assert PrimaryAt(t, i + 1) == Ok(Parsed(Name(t[i + 1].name), i + 2));
    PrimaryAlone(t, i + 1);
    assert TerminatedAt(t, i + 1) == Err(Expected(Semicolon));
    assert ScopeBodyAt(t, i + 1) == Err(Expected(Semicolon));
  }

  /** The update of a `for` header is an expression unless it starts with `;`, so an empty
      update, where `)` follows the second `;`, is an error. */
  lemma EmptyUpdateFails(t: seq<Token>, i: nat)
    requires InStream(t, i) && t[i].RightParen?
    ensures ForUpdateAt(t, i) == Err(UnexpectedToken(RightParen))
  {
    assert PrimaryAt(t, i) == Err(UnexpectedToken(RightParen));
  }

  /** In particular `for (;;)` never parses. */
  lemma {:induction false} EmptyForHeaderFails(t: seq<Token>, i: nat)
    requires InStream(t, i) && i + 4 < |t|
    requires t[i].For? && t[i + 1].LeftParen? && t[i + 2].Semicolon? && t[i + 3].Semicolon? && t[i + 4].RightParen?
    ensures ForAt(t, i) == Err(UnexpectedToken(RightParen))
  {
    assert ForInitAt(t, i + 2) == Ok(Parsed(None, i + 3));
    EmptyUpdateFails(t, i + 4);
    assert ForClausesAt(t, i + 3) == Err(UnexpectedToken(RightParen));
  }

  predicate IsReturnInFor(t: seq<Token>)
  {
    t == [Token.For, LeftParen, Token.Return, Semicolon, Token.Identifier("x"), RightParen,
          Token.Identifier("y"), Semicolon, EOF]
  }

  function ReturnNothing(): Statement
  {
    Statement.Return(Expression.Literal(Literal.Undefined))
  }

  lemma ReturnInForHeader(t: seq<Token>)
    requires IsReturnInFor(t)
    ensures ForHeaderAt(t, 1) == Ok(Parsed((Some(ReturnNothing()), None, Some(Name("x"))), 6))
  {
    assert ReturnAt(t, 2) == Ok(Parsed(ReturnNothing(), 3));
    assert ForInitAt(t, 2) == Ok(Parsed(Some(ReturnNothing()), 3));
    assert PrimaryAt(t, 4) == Ok(Parsed(Name("x"), 5));
    PrimaryAlone(t, 4);
    assert OptionalExpressionAt(t, 4) == Ok(Parsed(Some(Name("x")), 5));
    assert ForUpdateAt(t, 4) == Ok(Parsed(Some(Name("x")), 6));
    assert ForClausesAt(t, 3) == Ok(Parsed((None, Some(Name("x"))), 6));
  }

  lemma ReturnInForBody(t: seq<Token>)
    requires IsReturnInFor(t)
    ensures StatementAt(t, 6) == Ok(Parsed(Statement.Expression(Name("y")), 8))
  {
    assert PrimaryAt(t, 6) == Ok(Parsed(Name("y"), 7));
    PrimaryAlone(t, 6);
    assert TerminatedAt(t, 6) == Ok(Parsed(Name("y"), 8));
  }

  /** As the initializer of a `for`, `return;` parses: the `;` it leaves ends the (empty)
      condition, so `for (return; x) y;` has no condition and `x` as its update. */
  lemma ReturnInForInit(t: seq<Token>)
    requires IsReturnInFor(t)
    ensures ProgramFrom(t, 0) ==
              Ok(Parsed([Statement.For(Some(ReturnNothing()), None, Some(Name("x")), Statement.Expression(Name("y")))], 8))
  {
    var loop := Statement.For(Some(ReturnNothing()), None, Some(Name("x")), Statement.Expression(Name("y")));
    ReturnInForHeader(t);
    ReturnInForBody(t);
    assert ExpectAt(t, 0, Token.For) == Ok(1);
    assert ForAt(t, 0) == Ok(Parsed(loop, 8));
    assert StatementAt(t, 0) == Ok(Parsed(loop, 8));
    assert ProgramFrom(t, 8) == Ok(Parsed([], 8));
    assert [loop] + [] == [loop];
  }

  /** `let name;` binds `undefined`. */
  lemma LetWithoutValue(t: seq<Token>, i: nat)
    requires InStream(t, i) && t[i].Let? && t[i + 1].Identifier? && t[i + 2].Semicolon?
    ensures LetAt(t, i) == Ok(Parsed(Statement.Let(t[i + 1].name, Expression.Literal(Literal.Undefined)), i + 3))
  {
  }

  /** `let name = e;` binds `e`, which runs to the `;`. */
  lemma LetWithValue(t: seq<Token>, i: nat)
    requires InStream(t, i) && t[i].Let? && t[i + 1].Identifier? && t[i + 2].Equal?
    ensures LetAt(t, i) ==
              match TerminatedAt(t, i + 3)
              case Ok(e) => Ok(Parsed(Statement.Let(t[i + 1].name, e.value), e.next))
              case Err(err) => Err(err)
  {
  }

  /** `let` needs a name, and after the name `;` or `=`. */
  lemma LetErrors(t: seq<Token>, i: nat)
    requires InStream(t, i) && t[i].Let?
    ensures !t[i + 1].Identifier? ==> LetAt(t, i) == Err(ExpectedIdentifier(Token.Let, t[i + 1]))
    ensures t[i + 1].Identifier? && !t[i + 2].Semicolon? && !t[i + 2].Equal? ==>
              LetAt(t, i) == Err(Expected(Token.Equal))
  {
  }

  /** Only the `if` arm of `statement` makes an `if` statement. */
  lemma OnlyIfMakesIf(t: seq<Token>, i: nat)
    requires InStream(t, i) && StatementAt(t, i).Ok?
    ensures StatementAt(t, i).value.value.If? ==> t[i].If? && StatementAt(t, i) == IfAt(t, i)
  {
    var tok := t[i];
    if tok.Return? {
      assert ReturnAt(t, i).value.value.Return?;
    } else if tok.Let? {
      assert LetAt(t, i).value.value.Let?;
    } else if tok.While? {
      assert WhileAt(t, i).value.value.While?;
    } else if tok.For? {
      assert ForAt(t, i).value.value.For?;
    } else if tok.Function? {
      assert FunctionAt(t, i).value.value.Function?;
    }
  }

  /** An `else` belongs to the nearest `if`: when the consequence of an `if` is an `if`
      without an `else`, the outer one has no `else` either. */
  lemma {:induction false} DanglingElse(t: seq<Token>, i: nat)
    requires InStream(t, i) && t[i].If? && IfAt(t, i).Ok?
    requires var s := IfAt(t, i).value.value; s.consequence.If? && s.consequence.alternative.None?
    ensures IfAt(t, i).value.value.alternative.None?
  {
    var condition := ParenthesizedAt(t, i + 1).value;
    var n := condition.next;
    var consequence := StatementAt(t, n).value;
    OnlyIfMakesIf(t, n);
    var inner := IfAt(t, n).value;
    assert consequence == inner;
    var innerCondition := ParenthesizedAt(t, n + 1).value;
    var innerConsequence := StatementAt(t, innerCondition.next).value;
    assert ElseAt(t, innerConsequence.next).value.value.None?;
    assert !t[consequence.next].Else?;
  }
}
