# tinyjs front end and runtime core, in Dafny

This project models the core of tinyjs, a small JavaScript-like interpreter written in Rust,
and proves properties of that model:

- the lexer (`src/lexer.rs`), which turns source text into tokens ending in `EOF`;
- the recursive-descent parser (`src/parser/parser.rs`) and the syntax tree and value type it
  builds (`src/parser/ast.rs`);
- the scope stack of the runtime (`src/runtime/scope.rs`);
- the built-in values and methods (`src/runtime/builtins.rs`).

Each imperative part of the source is a class whose methods change its fields step by step:

- `Lexing.Lexer` and `Parsing.Parser` each have a cursor;
- `ScopeStack.Scope` holds a stack of frames;
- `Ast.SharedArray` is the shared, mutable cell behind an array value;
- `Builtin.Builtins` holds the lookup tables.

Each method is proved against a pure reference definition:

- `Lexing.LexFrom`/`ScanAt` for the lexer;
- the `ParserSpec` functions for the parser, one per parsing routine;
- `ScopeStack.Lookup`/`Entered`/`Exited`/`Assigned` for the scope stack;
- `Builtin.JoinOf`/`SplitOf`/`Reversed`/`KeysOf` for the built-ins.

The properties of the language are stated as lemmas about those definitions:

- no operator precedence;
- prefix operators and assignment take the rest of the expression;
- the behaviour of `return;` and of a `{` at statement start;
- shadowing, and restoring lookups after a scope;
- round trips of number lexing and of `split`/`join`.

A Rust `panic!` is an `Err` (or `Fail`) result carrying what the panic reports.

Files and modules, in dependency order:

- `wrappers.dfy` (`Wrappers`): `Option`, `Result`, `Outcome`.
- `tokens.dfy` (`Tokens`): the token type of `src/lexer/token.rs`.
- `ast.dfy` (`Ast`): the syntax tree and values, and truthiness.
- `lexer.dfy` (`Lexing`) and `lexer_facts.dfy` (`LexerFacts`).
- `parser_spec.dfy` (`ParserSpec`), `parser.dfy` (`Parsing`) and `parser_facts.dfy` (`ParserFacts`).
- `scope.dfy` (`ScopeStack`).
- `builtins.dfy` (`Builtin`).

## How tinyjs differs from JavaScript

The model follows the Rust code. Each point that is about the core is proved as a lemma:

- **No precedence.** Binary operators do not have JavaScript's precedence levels. They nest
  to the right: `2 * 3 + 1` is `2 * (3 + 1)` (`ParserFacts.RightNestingExample`).
- **Prefix operators.** A prefix `-`/`!` applies to the whole rest of the expression
  (`ParserFacts.NegationExample`).
- **`null` is not a keyword.** It lexes as an identifier (`LexerFacts.NullIsAnIdentifier`).
  No lexer path produces the `Null`/`Undefined` tokens.
- **No single-quoted strings.** An unrecognised character is not a lex error. It is skipped,
  and so are `&`, `|`, `'` and `%` (`LexerFacts.SilentCharacters`). So `&&`, `||`, `++` and
  `--` are never single tokens.
- **Strings.** They have no escapes, and the only lex error is an unterminated string
  (`LexerFacts.ScanString`).
- **`let x;`** binds `undefined` (`ParserFacts.LetWithoutValue`).
- **Truthiness.** Empty arrays and empty objects are falsy (`Ast.ContainersByEmptiness`).
- **Assignment targets** are not checked: `1 = 2` parses (`ParserFacts.AssignmentTakesRest`,
  `ParserFacts.UncheckedTargetExample`).
- **`return;`** leaves its `;` unconsumed. So a statement list (the program or a block) fails
  on it (`ParserFacts.ReturnWithoutValueFails`). The exception is a `for` initializer, where
  that `;` ends the empty condition instead: `for (return; x) y;` parses
  (`ParserFacts.ReturnInForInit`).
- **`for (;;)`** does not parse (`ParserFacts.EmptyForHeaderFails`).
- **Scopes.** They are a stack of maps searched from the innermost frame outwards. A missing
  name gives `None`, not an error (`ScopeStack.LookupIsInnermost`).

## Model

| member | source | states |
|---|---|---|
| Ast.IsFalsyValue | src/parser/ast.rs:43-55 | the falsy values: 0, "", null, false, undefined, an array whose cell is empty and an object without properties; a reference definition of which `Ast.Truthy` is proved to be the complement |
| Ast.Truthy | src/parser/ast.rs:43-55 | a value is truthy exactly when it is not one of the falsy values (0, "", null, false, undefined, an empty array cell, an empty object) |
| Ast.TruthyValues | src/parser/ast.rs:45-53 | a number is truthy iff non-zero, a string iff non-empty, a boolean iff true; null and undefined are falsy; functions and native functions are truthy |
| Ast.ContainersByEmptiness | src/parser/ast.rs:50-51 | an array is truthy iff its shared cell is non-empty, an object iff it has properties |
| Lexing.RunEnd | src/lexer.rs:35-43 | the end of the longest run satisfying the predicate: every character before it satisfies it and the one at it does not |
| Lexing.ScanAt | src/lexer.rs:105-199 | one turn of the main loop of `lex` consumes at least one character and stays within the input |
| Lexing.KeywordOrIdentifier | src/lexer.rs:48-77 | the keyword table of `lex_identifier`: a listed word is its keyword token, any other word `Identifier(word)`; `LexerFacts.KeywordTable` and `LexerFacts.ScanWord` state its consequences |
| Lexing.DecimalValue | src/lexer.rs:83-87 | the value of a digit string read left to right in base ten; `LexerFacts.DecimalRoundTrip` proves it inverts the decimal spelling of every number |
| Lexing.StringAt | src/lexer.rs:90-100 | a string literal runs from the opening quote to the first closing quote, and without one it is an error; `LexerFacts.ScanString` states both directions |
| Lexing.Greedy | src/lexer.rs:133-195 | an operator character followed by `=` makes the two-character token and consumes both, otherwise the one-character token; `LexerFacts.ScanGreedy` states it for all seven operators |
| Lexing.LexFrom | src/lexer.rs:102-204 | the reference for the loop of `lex`: each turn of `ScanAt` in order until the end, then `EOF`, or the first error; `Lexing.Lexer.Lex` is proved to compute it and `LexerFacts.LexFromShape` proves the single trailing `EOF` |
| Lexing.Tokenize | src/lexer.rs:102-204 | `Lexer::new(source).lex()`: `LexFrom` from position 0; `LexerFacts.TokenizeEndsWithEof` and `LexerFacts.NumberRoundTrip` state its output |
| Lexing.Lexer.constructor | src/lexer.rs:10-15 | a new lexer is at position 0 of its source |
| Lexing.Lexer.PeekAhead | src/lexer.rs:21-27 | the character `offset` places ahead of the cursor, or none past the end |
| Lexing.Lexer.Peek | src/lexer.rs:17-19 | the character under the cursor, or none at the end |
| Lexing.Lexer.Consume | src/lexer.rs:29-33 | answers what `Peek` answered and advances the cursor by one |
| Lexing.Lexer.ConsumeWhile | src/lexer.rs:35-43 | the cursor ends at the end of the run that satisfies the predicate |
| Lexing.Lexer.LexIdentifier | src/lexer.rs:45-78 | consumes the longest word and answers its keyword token, or `Identifier(word)` |
| Lexing.Lexer.LexNumeric | src/lexer.rs:80-88 | consumes the longest digit run and answers its decimal value |
| Lexing.Lexer.LexLiteral | src/lexer.rs:90-100 | consumes a string literal up to and including the next quote, answering its text, or fails when there is none |
| Lexing.Lexer.Lex | src/lexer.rs:102-204 | the token list (or error) is exactly the reference `LexFrom` from the starting cursor |
| Lexing.Lexer.ConsumeAs | src/lexer.rs:112-121 | a punctuation arm consumes one character and emits its token |
| Lexing.Lexer.LexGreedy | src/lexer.rs:133-195 | an operator consumes a following `=` too and then emits the two-character token, otherwise the one-character token |
| LexerFacts.ScanEmitsProducible | src/lexer.rs:105-199 | a turn of the loop only ever emits a token that the lexer can produce (never `EOF`, `Null`, `Undefined`, `%`, `%=`, `&`, `&&`, `\|`, `\|\|`, `++` or `--`) |
| LexerFacts.LexFromShape | src/lexer.rs:102-204 | the output ends in exactly one `EOF`, and every earlier token is producible |
| LexerFacts.TokenizeEndsWithEof | src/lexer.rs:202-203 | a successful tokenization is non-empty, ends in `EOF` and has no other `EOF` |
| LexerFacts.ScanSilent | src/lexer.rs:105-111 | a whitespace or unrecognised character is consumed alone with nothing emitted; a turn emits nothing exactly for such a character or a comment |
| LexerFacts.SilentCharacters | src/lexer.rs:196 | space, newline, tab, `\r`, `%`, `&`, `\|`, `'`, `$`, `#` and `@` are silent |
| LexerFacts.CommentSkipsToNewline | src/lexer.rs:122-126 | `//` emits nothing and skips to the next newline (not consumed) or the end |
| LexerFacts.ScanWord | src/lexer.rs:45-78 | a word is the longest run of word characters and becomes its keyword token or an identifier |
| LexerFacts.KeywordTable | src/lexer.rs:48-62 | `null` and `undefined` are not keywords; `let` and `function` are |
| LexerFacts.ScanString | src/lexer.rs:90-100 | a string literal succeeds iff a closing quote follows, and its text is everything up to the first one |
| LexerFacts.DecimalRoundTrip | src/lexer.rs:83-87 | reading the decimal spelling of `n` gives back `n` |
| LexerFacts.NumberRoundTrip | src/lexer.rs:80-88 | lexing the decimal spelling of `n` gives `[Number(n), EOF]` |
| LexerFacts.GreedyExamples | src/lexer.rs:127-195 | `==` is one token, `--` is two `Minus`, `<=` is one token, and `/=` is `SlashEqual` followed by `Equal` |
| LexerFacts.ScanGreedy | src/lexer.rs:133-195 | for every input and each of `* + - = ! < >`: with `=` next the two-character token and the cursor two on, otherwise the one-character token and the cursor one on |
| LexerFacts.SlashEqualLeavesEqual | src/lexer.rs:122-132 | `/` then `=` emits `SlashEqual` but consumes only the `/`, for every input |
| LexerFacts.DecimalPointExample | src/lexer.rs:80-88 | `1.5` lexes as `Number(1), Dot, Number(5)` |
| LexerFacts.NullIsAnIdentifier | src/lexer.rs:73-77 | `null` lexes as `Identifier("null")` |
| LexerFacts.UnterminatedStringExample | src/lexer.rs:94-95 | a string without a closing quote is an error |
| ParserSpec.ExpectAt | src/parser/parser.rs:33-39 | `expect` succeeds iff the token is the wanted one, advancing by one, and otherwise fails naming it |
| ParserSpec.IdentifierAt | src/parser/parser.rs:66-69 | reading a name succeeds iff the token is an identifier, and answers its text |
| ParserSpec.InfixOperator | src/parser/parser.rs:281-353 | the operator table of `match_infix_operators`: which token is which binary operator; `ParserSpec.OperatorToken` is proved its right inverse |
| ParserSpec.OperatorToken | src/parser/parser.rs:281-353 | every binary operator has a token that `match_infix_operators` maps to it |
| ParserSpec.ExpressionAt | src/parser/parser.rs:356-475 | a parsed expression consumes at least one token and stops at a token that cannot continue it |
| ParserSpec.PrimaryAt | src/parser/parser.rs:357-403 | a primary expression consumes at least one token |
| ParserSpec.ParenthesizedAt | src/parser/parser.rs:374-378 | a parenthesized expression ends just after a `)` |
| ParserSpec.UnaryAt | src/parser/parser.rs:388-401 | a prefix operator's operand consumes at least one token |
| ParserSpec.ArrayAt | src/parser/parser.rs:379-383 | an array literal consumes at least its closing `]` |
| ParserSpec.PostfixAt | src/parser/parser.rs:406-451 | the postfix loop stops at the first token that is not a postfix operator, and leaves the expression unchanged if there is none |
| ParserSpec.PostfixStepAt | src/parser/parser.rs:407-448 | one postfix operator consumes at least one token |
| ParserSpec.CallAt | src/parser/parser.rs:429-436 | a call ends just after its `)` |
| ParserSpec.InfixAt | src/parser/parser.rs:465-472 | the infix loop stops at a token that is not an infix operator, and leaves the operand unchanged if there is none |
| ParserSpec.ArgsAt | src/parser/parser.rs:221-235 | `do_args` stops at the `)` it does not consume |
| ParserSpec.ElementsAt | src/parser/parser.rs:237-250 | an element list stops at its closing token, and is empty when that comes first |
| ParserSpec.SeparatorAt | src/parser/parser.rs:227-230 | after an element, the closing token ends the list, a comma continues it, and anything else is the failed `expect(Comma)` |
| ParserSpec.ElementAt | src/parser/parser.rs:240-245 | an element consumes at least one token and, when it is the last, stops at the closing token |
| ParserSpec.ElementListAt | src/parser/parser.rs:240-246 | a non-empty element list stops at its closing token |
| ParserSpec.ObjectAt | src/parser/parser.rs:252-279 | an object literal ends just after its `}` |
| ParserSpec.KeyAt | src/parser/parser.rs:256-263 | a key is a string literal or a name, and anything else fails naming the token |
| ParserSpec.PropertyAt | src/parser/parser.rs:256-267 | a property consumes at least key, `:` and a value |
| ParserSpec.PropertiesAt | src/parser/parser.rs:255-274 | a non-empty property list stops at the `}` |
| ParserSpec.StatementAt | src/parser/parser.rs:181-219 | every successful statement strictly advances the cursor |
| ParserSpec.TerminatedAt | src/parser/parser.rs:213-216 | an expression statement ends just after its `;` |
| ParserSpec.ReturnAt | src/parser/parser.rs:183-193 | a `return` consumes at least its keyword; `ParserFacts.ReturnValueTakesSemicolon` and `ParserFacts.ReturnWithoutValueFails` state its two arms |
| ParserSpec.IfAt | src/parser/parser.rs:41-61 | an `if` statement consumes at least one token; `ParserFacts.IfNeedsParens` states that a missing `(` is an error and `ParserFacts.DanglingElse` how `else` attaches |
| ParserSpec.ElseAt | src/parser/parser.rs:49-54 | there is an alternative iff the next token is `else` |
| ParserSpec.LetAt | src/parser/parser.rs:63-84 | a `let` consumes at least one token |
| ParserSpec.LetValueAt | src/parser/parser.rs:71-78 | the value part of a `let` ends just after its `;` |
| ParserSpec.WhileAt | src/parser/parser.rs:86-96 | a `while` consumes at least one token |
| ParserSpec.ForAt | src/parser/parser.rs:98-131 | a `for` consumes at least one token |
| ParserSpec.ForHeaderAt | src/parser/parser.rs:99-121 | a `for` header ends just after its `)` |
| ParserSpec.ForInitAt | src/parser/parser.rs:101-106 | a `;` initializer is empty and consumes the `;` |
| ParserSpec.ForClausesAt | src/parser/parser.rs:109-121 | condition and update end just after the `)` |
| ParserSpec.ForUpdateAt | src/parser/parser.rs:116-121 | the update ends just after the `)` |
| ParserSpec.OptionalExpressionAt | src/parser/parser.rs:109-113 | the clause is empty exactly when it starts with `;`, and then nothing is consumed |
| ParserSpec.FunctionAt | src/parser/parser.rs:133-167 | a function declaration consumes at least one token |
| ParserSpec.ParametersAt | src/parser/parser.rs:140-156 | a parameter list ends just after its `)` |
| ParserSpec.ParameterListAt | src/parser/parser.rs:143-154 | a non-empty parameter list stops at the `)` |
| ParserSpec.ScopeAt | src/parser/parser.rs:169-178 | a block ends just after its `}` |
| ParserSpec.ScopeBodyAt | src/parser/parser.rs:172-174 | the statements of a block stop at a `}` or at `EOF` |
| ParserSpec.ProgramFrom | src/parser/parser.rs:477-485 | `parse` stops at `EOF`, with no statements when it starts there |
| ParserSpec.ParseProgram | src/parser/ast.rs:134-137 | `AST::new` succeeds exactly when `parse` from position 0 does |
| Parsing.Parser.constructor | src/parser/parser.rs:11-13 | a new parser is at position 0 |
| Parsing.Parser.Done | src/parser/parser.rs:15-17 | with the cursor on a token, `done` is the test for `EOF` |
| Parsing.Parser.Peek | src/parser/parser.rs:19-25 | the token under the cursor, read by indexing as `peek_by(0)` does, so only within the stream |
| Parsing.Parser.Consume | src/parser/parser.rs:27-31 | answers the token under the cursor and advances by one |
| Parsing.Parser.Expect | src/parser/parser.rs:33-39 | advances exactly as `ExpectAt` says, or fails with its error |
| Parsing.Parser.ConsumeIdentifier | src/parser/parser.rs:66-69 | agrees with `IdentifierAt`: the same name and cursor, or the same error |
| Parsing.Parser.MatchInfixOperators | src/parser/parser.rs:281-353 | answers the operator of the current token and consumes it only if there is one |
| Parsing.Parser.ParseExpression | src/parser/parser.rs:356-475 | agrees with `ExpressionAt`: the same expression and final cursor, or the same error |
| Parsing.Parser.Primary | src/parser/parser.rs:357-403 | agrees with `PrimaryAt` |
| Parsing.Parser.Postfix | src/parser/parser.rs:406-451 | the postfix loop agrees with `PostfixAt` |
| Parsing.Parser.PostfixStep | src/parser/parser.rs:407-448 | agrees with `PostfixStepAt` |
| Parsing.Parser.Call | src/parser/parser.rs:429-436 | agrees with `CallAt` |
| Parsing.Parser.Infix | src/parser/parser.rs:465-472 | the infix loop agrees with `InfixAt` |
| Parsing.Parser.DoArgs | src/parser/parser.rs:221-235 | agrees with `ArgsAt` |
| Parsing.Parser.DoArray | src/parser/parser.rs:379-383 | agrees with `ArrayAt` |
| Parsing.Parser.Separator | src/parser/parser.rs:227-230 | agrees with `SeparatorAt` |
| Parsing.Parser.Elements | src/parser/parser.rs:237-250 | agrees with `ElementsAt` |
| Parsing.Parser.Element | src/parser/parser.rs:241-245 | agrees with `ElementAt` |
| Parsing.Parser.ElementList | src/parser/parser.rs:240-246 | the element loop agrees with `ElementListAt` |
| Parsing.Parser.DoObject | src/parser/parser.rs:252-279 | agrees with `ObjectAt` |
| Parsing.Parser.ObjectProperty | src/parser/parser.rs:256-267 | agrees with `PropertyAt` |
| Parsing.Parser.Parenthesized | src/parser/parser.rs:374-378 | agrees with `ParenthesizedAt` |
| Parsing.Parser.ParseStatement | src/parser/parser.rs:181-219 | agrees with `StatementAt` |
| Parsing.Parser.Terminated | src/parser/parser.rs:213-216 | agrees with `TerminatedAt` |
| Parsing.Parser.ReturnStatement | src/parser/parser.rs:183-193 | agrees with `ReturnAt` |
| Parsing.Parser.DoIf | src/parser/parser.rs:41-61 | agrees with `IfAt` |
| Parsing.Parser.Alternative | src/parser/parser.rs:49-54 | agrees with `ElseAt` |
| Parsing.Parser.DoLet | src/parser/parser.rs:63-84 | agrees with `LetAt` |
| Parsing.Parser.LetValue | src/parser/parser.rs:71-78 | agrees with `LetValueAt` |
| Parsing.Parser.DoWhile | src/parser/parser.rs:86-96 | agrees with `WhileAt` |
| Parsing.Parser.DoFor | src/parser/parser.rs:98-131 | agrees with `ForAt` |
| Parsing.Parser.ForHeader | src/parser/parser.rs:99-121 | agrees with `ForHeaderAt` |
| Parsing.Parser.ForInit | src/parser/parser.rs:101-106 | agrees with `ForInitAt` |
| Parsing.Parser.ForClauses | src/parser/parser.rs:109-121 | agrees with `ForClausesAt` |
| Parsing.Parser.ForUpdate | src/parser/parser.rs:116-121 | agrees with `ForUpdateAt` |
| Parsing.Parser.OptionalExpression | src/parser/parser.rs:109-113 | agrees with `OptionalExpressionAt` |
| Parsing.Parser.DoFunction | src/parser/parser.rs:133-167 | agrees with `FunctionAt` |
| Parsing.Parser.Parameters | src/parser/parser.rs:140-156 | agrees with `ParametersAt` |
| Parsing.Parser.ParameterList | src/parser/parser.rs:143-154 | the parameter loop agrees with `ParameterListAt` |
| Parsing.Parser.DoScope | src/parser/parser.rs:169-178 | agrees with `ScopeAt` |
| Parsing.Parser.ScopeBody | src/parser/parser.rs:172-174 | the statement loop of a block agrees with `ScopeBodyAt` |
| Parsing.Parser.Parse | src/parser/parser.rs:477-485 | the statement loop of `parse` agrees with `ProgramFrom`: the statements in source order up to `EOF` |
| Parsing.NewAst | src/parser/ast.rs:134-137 | `AST::new(tokens)` is `ParseProgram(tokens)`, the reference parse from position 0 |
| ParserFacts.LexedTokensEndWithEof | src/lexer.rs:202-203 | whatever the lexer produces satisfies the parser's input precondition |
| ParserFacts.InfixTakesRest | src/parser/parser.rs:465-472 | after an infix operator the right operand is the whole rest of the expression, so the loop takes one operator only |
| ParserFacts.BinaryNestsRight | src/parser/parser.rs:465-472 | `a op rest` is `BinaryOp(a, op, rest)` with `rest` parsed on its own: no precedence, right nesting |
| ParserFacts.PrimaryAlone | src/parser/parser.rs:356-475 | a primary part that nothing can continue is the whole expression |
| ParserFacts.UnaryTakesRest | src/parser/parser.rs:388-401 | `-`/`!` apply to the whole following expression |
| ParserFacts.AssignmentTakesRest | src/parser/parser.rs:454-461 | any primary part with its postfix chain, followed by `=`, becomes the unchecked target of an assignment whose value is the whole rest, so assignment nests to the right |
| ParserFacts.UncheckedTargetExample | src/parser/parser.rs:454-461 | `1 = 2` parses as an assignment to the number 1 |
| ParserFacts.IdentifierCall | src/parser/parser.rs:360-368 | a name directly followed by `(` is a call with that name as callee and the arguments of `do_args` |
| ParserFacts.RightNestingExample | src/parser/parser.rs:465-472 | `2 * 3 + 1` parses as `2 * (3 + 1)` |
| ParserFacts.NegationExample | src/parser/parser.rs:388-394 | `-a + b` parses as `-(a + b)` |
| ParserFacts.PostfixAlone | src/parser/parser.rs:406-475 | postfix operators that nothing can continue end the expression |
| ParserFacts.PostfixChainExample | src/parser/parser.rs:406-451 | `a[i].b(c)` parses as the call of property `b` of `a[i]` with argument `c` |
| ParserFacts.PostfixStepWraps | src/parser/parser.rs:406-451 | each postfix step wraps the expression built so far: an index, the named property, a call, an increment or a decrement of it, by the token that starts it |
| ParserFacts.PostfixChainWraps | src/parser/parser.rs:406-451 | for every input, the result of the postfix loop has the expression it started from innermost, with the operators applied left to right |
| ParserFacts.ReturnWithoutValueFails | src/parser/parser.rs:183-192 | `return;` gives `Return(undefined)` without consuming `;`, and the statement after it, the program and the block all fail on the `;` |
| ParserFacts.IfNeedsParens | src/parser/parser.rs:41-44 | an `if` not followed by `(` fails expecting `(` |
| ParserFacts.ReturnValueTakesSemicolon | src/parser/parser.rs:183-192 | `return e;` is `Return(e)` where `e` is the expression before the `;`, and the `;` is consumed; errors of the expression or the missing `;` propagate |
| ParserFacts.ReturnInForInit | src/parser/parser.rs:98-131 | `for (return; x) y;` parses: the `;` that `return` leaves ends the empty condition, and `x` is the update |
| ParserFacts.BraceOpensBlock | src/parser/parser.rs:209-212 | a `{` at statement start is always parsed as a block |
| ParserFacts.ObjectStatementFails | src/parser/parser.rs:209-216 | `{ a: 1 }` as a statement fails for lack of a `;` after `a` |
| ParserFacts.EmptyUpdateFails | src/parser/parser.rs:116-120 | an empty `for` update (a `)` right after the second `;`) is an error |
| ParserFacts.EmptyForHeaderFails | src/parser/parser.rs:98-121 | `for (;;)` never parses |
| ParserFacts.LetWithoutValue | src/parser/parser.rs:72-73 | `let x;` binds `x` to `undefined` |
| ParserFacts.LetWithValue | src/parser/parser.rs:74-77 | `let x = e;` binds `x` to `e` |
| ParserFacts.LetErrors | src/parser/parser.rs:63-84 | a non-name after `let`, or anything but `;` or `=` after the name, is an error |
| ParserFacts.OnlyIfMakesIf | src/parser/parser.rs:181-219 | a statement is an `if` only when it starts with `if` |
| ParserFacts.DanglingElse | src/parser/parser.rs:47-54 | an `else` attaches to the innermost pending `if` |
| ScopeStack.LookupIsInnermost | src/runtime/scope.rs:24-28 | a lookup finds nothing iff no frame binds the name, and otherwise the binding of the innermost frame that has one |
| ScopeStack.Lookup | src/runtime/scope.rs:24-28 | the search of `get` from the innermost frame outwards; `ScopeStack.LookupIsInnermost` characterises its answer |
| ScopeStack.Entered | src/runtime/scope.rs:16-18 | the stack after `enter`: one more, empty, frame; `ScopeStack.EnterKeepsLookups` states its effect on lookups |
| ScopeStack.Exited | src/runtime/scope.rs:20-22 | the stack after `exit`: the innermost frame dropped, nothing on an empty stack; `ScopeStack.EnterKeepsLookups` proves it undoes `enter` |
| ScopeStack.Assigned | src/runtime/scope.rs:30-33 | the stack after `set`: the innermost frame binds the name to the value; `ScopeStack.SetThenGet` states get-after-set |
| ScopeStack.Scope.constructor | src/runtime/scope.rs:10-14 | a new scope has exactly one empty (global) frame |
| ScopeStack.Scope.Enter | src/runtime/scope.rs:16-18 | pushes one empty frame |
| ScopeStack.Scope.Exit | src/runtime/scope.rs:20-22 | pops the innermost frame; does nothing on an empty stack |
| ScopeStack.Scope.Get | src/runtime/scope.rs:24-28 | none iff no frame binds the name, otherwise the innermost binding |
| ScopeStack.Scope.Set | src/runtime/scope.rs:30-33 | binds in the innermost frame only and leaves outer frames untouched; fails on an empty stack with nothing changed |
| ScopeStack.NewScopeBindsNothing | src/runtime/scope.rs:10-14 | no name is bound in a new scope |
| ScopeStack.EnterKeepsLookups | src/runtime/scope.rs:16-22 | `enter` raises the depth by one, changes no lookup, and `exit` undoes it |
| ScopeStack.SetThenGet | src/runtime/scope.rs:24-33 | after `set(n, v)`, `get(n)` is `v`, every other lookup is unchanged, and only the innermost frame changed |
| ScopeStack.InnerShadowsOuter | src/runtime/scope.rs:16-33 | a binding in an entered frame hides the outer one, which is visible again after `exit` |
| ScopeStack.AssignedAllKeepsOuter | src/runtime/scope.rs:30-33 | any run of `set`s leaves every frame but the innermost unchanged |
| ScopeStack.EnterSetsExitRestores | src/runtime/scope.rs:16-33 | `enter`, any `set`s, then `exit` restores the stack, so every lookup is as before |
| Builtin.TypeTag | src/runtime/builtins.rs:57-69 | the `typeof` tag of each kind of value; `Builtin.TypeTagIdentifiesKind` proves distinct kinds get distinct tags |
| Builtin.Typeof | src/runtime/builtins.rs:52-70 | `typeof` needs exactly one argument and answers the tag of its kind |
| Builtin.TypeTagIdentifiesKind | src/runtime/builtins.rs:57-69 | two values get the same tag iff they are of the same kind |
| Builtin.ArrayLength | src/runtime/builtins.rs:73-80 | `length` of an array is its element count; a non-array is an error |
| Builtin.Push | src/runtime/builtins.rs:82-94 | appends exactly its one argument to the shared cell and answers the new length; a non-array or another argument count is an error |
| Builtin.Pop | src/runtime/builtins.rs:96-109 | removes and answers the last element; an empty array, a non-array or an argument count other than one is an error |
| Builtin.Reversed | src/runtime/builtins.rs:151 | element `i` of the reversal is element `n-1-i` of the original |
| Builtin.ReverseTwice | src/runtime/builtins.rs:145-153 | reversing twice restores the original order |
| Builtin.Reverse | src/runtime/builtins.rs:145-153 | reverses the shared cell in place and answers the same array value; a non-array is an error |
| Builtin.InterleaveSnoc | src/runtime/builtins.rs:129-140 | adding an element at the end adds the delimiter and the element, as the `join` loop does |
| Builtin.Texts | src/runtime/builtins.rs:135-136 | the texts of all-`String` elements, in order |
| Builtin.Strings | src/runtime/builtins.rs:176-178 | each piece as a `String` value, in order |
| Builtin.StringsAreStrings | src/runtime/builtins.rs:176-178 | the elements made from pieces are all `String`s whose texts are the pieces |
| Builtin.Delimiter | src/runtime/builtins.rs:117-127 | the default with no argument, the one `String` argument, and otherwise an error |
| Builtin.JoinOf | src/runtime/builtins.rs:111-143 | `join` succeeds iff the delimiter is valid and all elements are strings, and answers them interleaved with the delimiter |
| Builtin.JoinEmpty | src/runtime/builtins.rs:129-142 | an empty array joins to `""` |
| Builtin.Join | src/runtime/builtins.rs:111-143 | the loop answers what `JoinOf` says for the array's elements; a non-array is an error |
| Builtin.SplitFrom | src/runtime/builtins.rs:174 | a split with a non-empty delimiter always has at least one piece |
| Builtin.Characters | src/runtime/builtins.rs:174 | the pieces of a split with the empty delimiter are the single characters |
| Builtin.SplitOn | src/runtime/builtins.rs:174 | a split always has at least one piece |
| Builtin.SplitFromRoundTrip | src/runtime/builtins.rs:174 | joining the pieces of a non-empty-delimiter split gives back the string |
| Builtin.CharactersRoundTrip | src/runtime/builtins.rs:174 | joining the pieces of an empty-delimiter split gives back the string |
| Builtin.SplitJoinRoundTrip | src/runtime/builtins.rs:174 | joining the pieces of any split with the same delimiter gives back the string |
| Builtin.SplitOf | src/runtime/builtins.rs:156-179 | `split` succeeds iff the receiver is a string and the delimiter (default `" "`) is valid, and answers the pieces as `String`s |
| Builtin.SplitThenJoin | src/runtime/builtins.rs:156-179 | `split` yields only `String`s, and `join` of the result with the same delimiter gives the original string |
| Builtin.Split | src/runtime/builtins.rs:156-179 | answers a fresh array holding what `SplitOf` says, or its error |
| Builtin.KeysOf | src/runtime/builtins.rs:193 | one `String` per property, holding its key, in property order |
| Builtin.ObjectKeys | src/runtime/builtins.rs:182-196 | a fresh array of the keys of the one object argument; another argument count or a non-object is an error |
| Builtin.Builtins.constructor | src/runtime/builtins.rs:229-265 | the tables: four global objects with their named native functions, five array methods, one string method |
| Builtin.Builtins.Load | src/runtime/builtins.rs:267-271 | every global object is bound in the innermost frame, whatever the order, so `get` finds each; with no frame it fails and changes nothing |
| Builtin.Builtins.ArrayBuiltin | src/runtime/builtins.rs:273-282 | a name in the array table gives the native function `Array.<name>` capturing the receiver; any other name is an error |
| Builtin.Builtins.StringBuiltin | src/runtime/builtins.rs:284-291 | a name in the string table gives `String.<name>` capturing the receiver; any other name is an error |
| Builtin.MethodNames | src/runtime/builtins.rs:250-258 | arrays answer exactly `length`, `push`, `pop`, `join` and `reverse`, and strings exactly `split` |
| Builtin.CallArrayMethod | src/runtime/builtins.rs:73-155 | running an array table entry on a receiver does what that entry's function promises: `length`, `push`, `pop`, `join` or `reverse`, each with its error cases and its effect on the shared cell |
| Builtin.CallStringMethod | src/runtime/builtins.rs:156-180 | running the string table's `split` entry answers a fresh array of the pieces, or the same error as `SplitOf` |
| Builtin.GlobalMethodNamed | src/runtime/builtins.rs:236-243 | the native name `intrinsics.typeof` denotes `typeof` and `Object.keys` denotes `keys`, and no other name denotes either |
| Builtin.CallGlobal | src/runtime/builtins.rs:52-70 | calling `typeof` is `Typeof`; calling `Object.keys` checks its argument count and kind and answers a fresh array of the property names |
| Builtin.Builtins.CallArrayBuiltin | src/runtime/builtins.rs:273-282 | `array_builtin` then a call of its native function: `NotFound` with nothing changed for a missing name, otherwise the table's operation on the captured receiver |
| Builtin.Builtins.CallStringBuiltin | src/runtime/builtins.rs:284-292 | `string_builtin` then a call of its native function: `NotFound` for a missing name, otherwise the table's operation on the captured receiver |
| Builtin.ArrayTableByName | src/runtime/builtins.rs:250-258 | the array table holds each operation under its own name and nothing else, so the native function made for a name is named after the operation it runs; the string table holds only `split` |
| Builtin.GlobalNatives | src/runtime/builtins.rs:236-243 | the `typeof` of `intrinsics` and the `keys` of `Object` are the natives that `CallGlobal` runs as `Typeof` and `ObjectKeys` |

## Left out

- `console.log` and `intrinsics.dump`: their point is writing to standard output. The model lists them in the global tables only.
- `Math.sqrt` and `Math.max`: floating-point arithmetic. The model lists them in the global tables only.
- `f64` numbers: lexed numbers are `nat` and value numbers `int`. The NaN case of `truthy` is not modelled, and neither is the rounding of huge literals.
- Byte-versus-character indexing and Unicode `is_alphanumeric`: the input is a sequence of ASCII characters.
- The closures that `array_builtin`/`string_builtin` wrap in a `NativeFn`: a native function is modelled by its name and its captured receiver. The tables map names to operation tags, not to closures.
- The iteration order of the `HashMap` in `load`: the model binds the globals in an arbitrary order and proves that the resulting frame does not depend on it.
- `src/main.rs`, `src/runtime/interpreter.rs` (an empty stub), `src/optim/optim.rs` (a clone), `src/runtime/mod.rs` and the stale `src/token.rs` are not part of this model. No evaluation semantics are modelled.
- `peek_by` (src/parser/parser.rs:23-25): it is only ever called with offset 0, so `Peek` reads the current token directly.
- Parsing.Parser: every parsing method requires the token stream to end in `EOF` with the cursor on a token, because the source indexes `tokens[pos]` unchecked. Its out-of-bounds panics past the end are not modelled; the lexer's output always meets the requirement (`ParserFacts.LexedTokensEndWithEof`).
- Parsing.Parser.Separator: like `Elements`, `Element` and `ElementList`, it requires the closing token to be `)`, `]` or `}`, the only ones the source passes.
- Lexing.Lexer.LexNumeric: it requires a digit under the cursor, which is how `lex` calls it, so the "Invalid number" panic cannot happen and is not modelled.
- Builtin.Pop: its error for a non-array and for a wrong argument count names `array.push`, as the source's messages do.
- `RefCell` borrow panics: none of the modelled operations can raise one, so they are not modelled.
