/** Classified, positioned lexical symbols as the lexer hands them to the parser. */
module Tokens {

  /** The token kinds the parser distinguishes. */
  datatype TokenType =
    | Identifier
    | CLogical | CInteger | CString
    | AtLogical | AtInteger | AtString
    | KwArr | KwElse | KwFor | KwFun | KwIf | KwThen | KwTyp | KwVar | KwWhere | KwWhile
    | OpAdd | OpSub | OpMul | OpDiv | OpMod
    | OpAnd | OpOr | OpNot
    | OpEq | OpNeq | OpLeq | OpGeq | OpLt | OpGt
    | OpLParent | OpRParent | OpLBracket | OpRBracket | OpLBrace | OpRBrace
    | OpColon | OpSemicolon | OpComma | OpAssign
    | Eof

  /** A line/column pair in the source text. */
  datatype Location = Location(line: int, column: int)

  /** The source span of a symbol or of a syntax-tree node. */
  datatype Position = Position(start: Location, end: Location)

  datatype Symbol = Symbol(tokenType: TokenType, lexeme: string, position: Position)

  /** A symbol list as the lexer produces it: never empty and closed by EOF. */
  predicate WellFormed(symbols: seq<Symbol>) {
    |symbols| > 0 && symbols[|symbols| - 1].tokenType == Eof
  }

  /** Moreover EOF occurs nowhere but at the end. */
  predicate Lexed(symbols: seq<Symbol>) {
    WellFormed(symbols) && forall i :: 0 <= i < |symbols| - 1 ==> symbols[i].tokenType != Eof
  }

  /** The cursor after one `skip`: it moves by one unless it already stands on the last symbol. */
  function Next(symbols: seq<Symbol>, p: nat): (q: nat)
    requires p < |symbols|
    ensures p <= q < |symbols|
    ensures q == p <==> p == |symbols| - 1
    ensures q != p ==> q == p + 1
    ensures WellFormed(symbols) && symbols[p].tokenType != Eof ==> q == p + 1
  {
    if p < |symbols| - 1 then p + 1 else p
  }

  /** A symbol other than EOF never stands last, so skipping it always advances. */
  lemma SkipAdvances(symbols: seq<Symbol>, p: nat)
    requires WellFormed(symbols) && p < |symbols|
    requires symbols[p].tokenType != Eof
    ensures Next(symbols, p) == p + 1
  {
  }
}
