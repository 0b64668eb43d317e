/** The token vocabulary of the lexer (src/lexer/token.rs). A lexed number is a run of decimal
    digits, so its payload is a natural number. */
module Tokens {

  datatype Token =
    | Identifier(name: string)
    | StringLiteral(text: string)
    | Number(value: nat)
    | Null
    | Undefined
    // Keywords
    | Let | Var
    | If | Else
    | While | For | Do
    | Continue | Break
    | Return
    | Function
    | True
    | False
    // Punctuation
    | LeftParen | RightParen
    | LeftBrace | RightBrace
    | LeftBracket | RightBracket
    | Comma
    | Dot
    | Colon
    | Semicolon
    // Operators
    | Slash
    | Plus
    | Minus
    | Star
    | Percent
    | PercentEqual
    | SlashEqual
    | PlusEqual
    | MinusEqual
    | StarEqual
    | Bang
    | BangEqual
    | Equal
    | EqualEqual
    | Greater
    | GreaterEqual
    | Less
    | LessEqual
    | Amp
    | AmpAmp
    | Pipe
    | PipePipe
    | PlusPlus
    | MinusMinus
    | EOF
}
