// Tokens as the parser sees them.
module Tokens {
  datatype Kind =
    | IntLiteral | FloatLiteral | StringLiteral | CharLiteral
    | Identifier
    | KwFn | KwFun | KwLet | KwVar | KwConst | KwIf | KwEf | KwEl | KwElse | KwWhile | KwFor | KwVloop | KwIn
    | KwReturn | KwImport | KwModule | KwStruct | KwInterface | KwEnum | KwType | KwTrue | KwFalse | KwNil
    | KwPub | KwMut | KwSelf | KwAs | KwBreak | KwContinue | KwMatch | KwArray
    | Plus | Minus | Star | Slash | Percent
    | EqEq | NotEq | Lt | Gt | LtEq | GtEq
    | AndAnd | OrOr | Bang
    | Amp | Pipe | Caret | Tilde | Shl | Shr
    | Eq | PlusEq | MinusEq | StarEq | SlashEq | PercentEq | AmpEq | PipeEq | CaretEq
    | LParen | RParen | LBrace | RBrace | LBracket | RBracket | Comma | Semicolon | Colon | ColonColon
    | Dot | DotDot | DotDotDot | Arrow | FatArrow | At | Hash | Question
    | Newline | Eof | Error

  // An integer literal carries its decoded value.
  datatype Token = Token(kind: Kind, lexeme: string, value: int)

  // The parser is given a stream that ends in Eof.
  type Stream = ts: seq<Token> | ts != [] && ts[|ts| - 1].kind.Eof? witness [Token(Eof, "", 0)]
}
