/** The syntax tree the parser builds: types, expressions and definitions. */
module Ast {
  import opened Tokens

  /** The three atomic types, also the kind of a literal. */
  datatype AtomType = Log | Int | Str

  datatype Type =
    | Atom(position: Position, kind: AtomType)
    | TypeName(position: Position, identifier: string)
    | Array(position: Position, size: int, elementType: Type)

  datatype BinaryOp = Or | And | Eq | Neq | Leq | Geq | Lt | Gt | Add | Sub | Mul | Div | Mod

  datatype UnaryOp = Plus | Minus | Not

  datatype Expr =
    | Literal(position: Position, value: string, kind: AtomType)
    | Name(position: Position, name: string)
    | Binary(position: Position, left: Expr, op: BinaryOp, right: Expr)
    | Unary(position: Position, operand: Expr, unaryOp: UnaryOp)
    | Call(position: Position, arguments: seq<Expr>, callee: string)
    | Block(position: Position, expressions: seq<Expr>)
    | IfThenElse(position: Position, condition: Expr, thenExpression: Expr, elseExpression: Expr)
    | While(position: Position, condition: Expr, body: Expr)
    | For(position: Position, counter: Expr, low: Expr, high: Expr, step: Expr, body: Expr)
    | Where(position: Position, expr: Expr, defs: Defs)

  datatype Parameter = Parameter(position: Position, name: string, declaredType: Type)

  datatype Def =
    | TypeDef(position: Position, name: string, declaredType: Type)
    | FunDef(position: Position, name: string, parameters: seq<Parameter>, returnType: Type, body: Expr)
    | VarDef(position: Position, name: string, declaredType: Type)

  datatype Defs = Defs(position: Position, definitions: seq<Def>)
}
