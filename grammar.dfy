/**
 * The recursive-descent parser read as functions: each production is a function of the
 * symbol list and the cursor, with the same branches, the same lookahead sets and the same
 * node construction as the parsing method it mirrors. A production that a caller enters
 * at the same cursor carries a smaller second `decreases` component than the caller; every
 * other recursive entry happens after a non-EOF symbol was skipped.
 */
module Grammar {
  import opened Tokens
  import opened Ast
  import opened Outcomes
  import Numbers

  // Lookaheads on which a production or tail derives the empty string.
  predicate ExprFollow(t: TokenType) {
    t == OpSemicolon || t == OpColon || t == OpRBracket || t == OpRParent || t == OpAssign ||
    t == OpComma || t == OpRBrace || t == KwThen || t == KwElse || t == Eof
  }
  predicate IorFollow(t: TokenType) { ExprFollow(t) || t == OpLBrace }
  predicate AndFollow(t: TokenType) { IorFollow(t) || t == OpOr }
  predicate CompareFollow(t: TokenType) { AndFollow(t) || t == OpAnd }
  predicate AddFollow(t: TokenType) { CompareFollow(t) || IsComparison(t) }
  predicate MulFollow(t: TokenType) { AddFollow(t) || IsAdditive(t) }
  predicate PostFollow(t: TokenType) { MulFollow(t) || IsMultiplicative(t) }
  predicate NameFollow(t: TokenType) { PostFollow(t) || t == OpLBracket }

  // Operator symbols of the comparison, additive, multiplicative and prefix productions.
  predicate IsComparison(t: TokenType) {
    t == OpEq || t == OpNeq || t == OpLeq || t == OpGeq || t == OpLt || t == OpGt
  }
  predicate IsAdditive(t: TokenType) { t == OpAdd || t == OpSub }
  predicate IsMultiplicative(t: TokenType) { t == OpMul || t == OpDiv || t == OpMod }
  predicate IsPrefix(t: TokenType) { t == OpAdd || t == OpSub || t == OpNot }

  /** The symbols of the logical, integer and string constants. */
  predicate IsConstant(t: TokenType) { t == CLogical || t == CInteger || t == CString }

  /** Lookaheads that start a postfix expression. */
  predicate PostStart(t: TokenType) { t == Identifier || t == OpLParent || t == OpLBrace || IsConstant(t) }

  /** Lookaheads that start the assignment branch after `{`. */
  predicate AssignmentStart(t: TokenType) {
    t == Identifier || t == OpLBracket || t == OpLBrace || IsPrefix(t) || IsConstant(t)
  }

  /** A successful production leaves the cursor inside the list and never moves it back. */
  predicate Advances<T>(toks: seq<Symbol>, p: nat, r: Outcome<T>) {
    r.Ok? ==> p <= r.next < |toks|
  }

  /** `Report.error(getSymbol().position, ...)` with the cursor at `p`. */
  function Error<T>(toks: seq<Symbol>, p: nat): Outcome<T>
    requires p < |toks|
  {
    Fail(SyntaxError(toks[p].position))
  }

  /** A null node is used while the cursor is at `p`. */
  function Missing<T>(toks: seq<Symbol>, p: nat): Outcome<T>
    requires p < |toks|
  {
    Fail(MissingNode(toks[p].position))
  }

  /** The operator a comparison symbol stands for; distinct symbols give distinct operators. */
  function CompareOp(t: TokenType): (op: BinaryOp)
    requires IsComparison(t)
    ensures op in {Eq, Neq, Leq, Geq, Lt, Gt} && ComparisonSymbol(op) == t
  {
    match t
    case OpEq => Eq
    case OpNeq => Neq
    case OpLeq => Leq
    case OpGeq => Geq
    case OpLt => Lt
    case OpGt => Gt
  }

  /** The symbol of each comparison operator. */
  function ComparisonSymbol(op: BinaryOp): (t: TokenType)
    requires op in {Eq, Neq, Leq, Geq, Lt, Gt}
    ensures IsComparison(t)
  {
    match op
    case Eq => OpEq
    case Neq => OpNeq
    case Leq => OpLeq
    case Geq => OpGeq
    case Lt => OpLt
    case Gt => OpGt
  }

  /** The operator an additive symbol stands for; `+` and `-` give distinct operators. */
  function AddOp(t: TokenType): (op: BinaryOp)
    requires IsAdditive(t)
    ensures (op == Add || op == Sub) && AddSymbol(op) == t
  {
    if t == OpAdd then Add else Sub
  }

  function AddSymbol(op: BinaryOp): (t: TokenType)
    requires op == Add || op == Sub
    ensures IsAdditive(t)
  {
    if op == Add then OpAdd else OpSub
  }

  /** The operator a multiplicative symbol stands for; distinct symbols give distinct operators. */
  function MulOp(t: TokenType): (op: BinaryOp)
    requires IsMultiplicative(t)
    ensures (op == Mul || op == Div || op == Mod) && MulSymbol(op) == t
  {
    if t == OpMul then Mul else if t == OpDiv then Div else Mod
  }

  function MulSymbol(op: BinaryOp): (t: TokenType)
    requires op == Mul || op == Div || op == Mod
    ensures IsMultiplicative(t)
  {
    if op == Mul then OpMul else if op == Div then OpDiv else OpMod
  }

  /** The atom type of the value a constant symbol denotes; distinct symbols give distinct types. */
  function ConstantKind(t: TokenType): (k: AtomType)
    requires IsConstant(t)
    ensures ConstantSymbol(k) == t
  {
    if t == CLogical then Log else if t == CInteger then Int else Str
  }

  /** The constant symbol of each kind of literal. */
  function ConstantSymbol(k: AtomType): (t: TokenType)
    ensures IsConstant(t)
  {
    match k
    case Log => CLogical
    case Int => CInteger
    case Str => CString
  }

  /** The operator a prefix symbol stands for; distinct symbols give distinct operators. */
  function PrefixOp(t: TokenType): (op: UnaryOp)
    requires IsPrefix(t)
    ensures PrefixSymbol(op) == t
  {
    if t == OpAdd then Plus else if t == OpSub then Minus else Not
  }

  function PrefixSymbol(op: UnaryOp): (t: TokenType)
    ensures IsPrefix(t)
  {
    match op
    case Plus => OpAdd
    case Minus => OpSub
    case Not => OpNot
  }

  /** The location one column to the left, used to end a definition list before EOF. */
  function ColumnBefore(l: Location): (r: Location)
    ensures r.line == l.line && r.column + 1 == l.column
  {
    Location(l.line, l.column - 1)
  }

  // ---------------------------------------------------------------- definitions

  /** defs -> def defs2 */
  function DefsAt(toks: seq<Symbol>, p: nat): (r: Outcome<Defs>)
    requires WellFormed(toks) && p < |toks|
    ensures Advances(toks, p, r)
    decreases |toks| - p, 13
  {
    match DefAt(toks, p) {
      case Fail(a) => Fail(a)
      case Ok(def, p1) =>
        match DefsTailAt(toks, p1) {
          case Fail(a) => Fail(a)
          case Ok(tail, q) =>
            Ok(Defs(Position(def.position.start, ColumnBefore(tail.position.end)),
                    [def] + tail.definitions), q)
        }
    }
  }

  /** def -> type_def | fun_def | var_def */
  function DefAt(toks: seq<Symbol>, p: nat): (r: Outcome<Def>)
    requires WellFormed(toks) && p < |toks|
    ensures Advances(toks, p, r)
    decreases |toks| - p, 12
  {
    var t := toks[p].tokenType;
    if t == KwTyp then TypeDefAt(toks, p)
    else if t == KwFun then FunDefAt(toks, p)
    else if t == KwVar then VarDefAt(toks, p)
    else Error(toks, p)
  }

  /** defs2 -> ';' def defs2 | (empty, before EOF, which is skipped, or before '}') */
  function DefsTailAt(toks: seq<Symbol>, p: nat): (r: Outcome<Defs>)
    requires WellFormed(toks) && p < |toks|
    ensures Advances(toks, p, r)
    decreases |toks| - p, 1
  {
    var t := toks[p].tokenType;
    if t == OpSemicolon then
      match DefAt(toks, Next(toks, p)) {
        case Fail(a) => Fail(a)
        case Ok(def, p1) =>
          match DefsTailAt(toks, p1) {
            case Fail(a) => Fail(a)
            case Ok(tail, q) =>
              Ok(Defs(Position(def.position.start, tail.position.end), [def] + tail.definitions), q)
          }
      }
    else if t == Eof then
      Ok(Defs(Position(toks[p].position.start, toks[p].position.end), []), Next(toks, p))
    else if t == OpRBrace then
      Ok(Defs(Position(toks[p].position.start, toks[p].position.end), []), p)
    else Error(toks, p)
  }

  /** type_def -> typ id ':' type */
  function TypeDefAt(toks: seq<Symbol>, p: nat): (r: Outcome<Def>)
    requires WellFormed(toks) && p < |toks|
    ensures Advances(toks, p, r)
    decreases |toks| - p, 1
  {
    var start := toks[p].position.start;
    var p1 := Next(toks, p);
    if toks[p1].tokenType != Identifier then Error(toks, p1) else
    var name := toks[p1].lexeme;
    var p2 := Next(toks, p1);
    if toks[p2].tokenType != OpColon then Error(toks, p2) else
    match TypeAt(toks, Next(toks, p2)) {
      case Fail(a) => Fail(a)
      case Ok(t, q) => Ok(TypeDef(Position(start, t.position.end), name, t), q)
    }
  }

  /** var_def -> var id ':' type */
  function VarDefAt(toks: seq<Symbol>, p: nat): (r: Outcome<Def>)
    requires WellFormed(toks) && p < |toks|
    ensures Advances(toks, p, r)
    decreases |toks| - p, 1
  {
    var start := toks[p].position.start;
    var p1 := Next(toks, p);
    if toks[p1].tokenType != Identifier then Error(toks, p1) else
    var name := toks[p1].lexeme;
    var p2 := Next(toks, p1);
    if toks[p2].tokenType != OpColon then Error(toks, p2) else
    match TypeAt(toks, Next(toks, p2)) {
      case Fail(a) => Fail(a)
      case Ok(t, q) => Ok(VarDef(Position(start, t.position.end), name, t), q)
    }
  }

  /** fun_def -> fun id '(' params ')' ':' type '=' expr  (params2 consumes the ')') */
  function FunDefAt(toks: seq<Symbol>, p: nat): (r: Outcome<Def>)
    requires WellFormed(toks) && p < |toks|
    ensures Advances(toks, p, r)
    decreases |toks| - p, 11
  {
    var start := toks[p].position.start;
    var p1 := Next(toks, p);
    if toks[p1].tokenType != Identifier then Error(toks, p1) else
    var name := toks[p1].lexeme;
    var p2 := Next(toks, p1);
    if toks[p2].tokenType != OpLParent then Error(toks, p2) else
    match ParamsAt(toks, Next(toks, p2)) {
      case Fail(a) => Fail(a)
      case Ok(params, p3) => FunBodyAt(toks, p3, start, name, params)
    }
  }

  /** The rest of fun_def after its parameters: `':' type '=' expr`. */
  function FunBodyAt(toks: seq<Symbol>, p: nat, start: Location, name: string, params: seq<Parameter>): (r: Outcome<Def>)
    requires WellFormed(toks) && p < |toks|
    ensures Advances(toks, p, r)
    decreases |toks| - p, 11
  {
    if toks[p].tokenType != OpColon then Error(toks, p) else
    match TypeAt(toks, Next(toks, p)) {
      case Fail(a) => Fail(a)
      case Ok(t, p4) =>
        if toks[p4].tokenType != OpAssign then Error(toks, p4) else
        match ExprAt(toks, Next(toks, p4)) {
          case Fail(a) => Fail(a)
          case Ok(body, q) =>
            if body.None? then Missing(toks, q) else
            Ok(FunDef(Position(start, body.value.position.end), name, params, t, body.value), q)
        }
    }
  }

  /** params -> param params2 */
  function ParamsAt(toks: seq<Symbol>, p: nat): (r: Outcome<seq<Parameter>>)
    requires WellFormed(toks) && p < |toks|
    ensures Advances(toks, p, r)
    decreases |toks| - p, 3
  {
    match ParamAt(toks, p) {
      case Fail(a) => Fail(a)
      case Ok(param, p1) =>
        match ParamsTailAt(toks, p1) {
          case Fail(a) => Fail(a)
          case Ok(rest, q) => Ok([param] + rest, q)
        }
    }
  }

  /** param -> id ':' type */
  function ParamAt(toks: seq<Symbol>, p: nat): (r: Outcome<Parameter>)
    requires WellFormed(toks) && p < |toks|
    ensures Advances(toks, p, r)
    decreases |toks| - p, 1
  {
    if toks[p].tokenType != Identifier then Error(toks, p) else
    var start := toks[p].position.start;
    var name := toks[p].lexeme;
    var p1 := Next(toks, p);
    if toks[p1].tokenType != OpColon then Error(toks, p1) else
    match TypeAt(toks, Next(toks, p1)) {
      case Fail(a) => Fail(a)
      case Ok(t, q) => Ok(Parameter(Position(start, t.position.end), name, t), q)
    }
  }

  /** params2 -> ',' param params2 | ')' */
  function ParamsTailAt(toks: seq<Symbol>, p: nat): (r: Outcome<seq<Parameter>>)
    requires WellFormed(toks) && p < |toks|
    ensures Advances(toks, p, r)
    decreases |toks| - p, 2
  {
    var t := toks[p].tokenType;
    if t == OpComma then
      match ParamAt(toks, Next(toks, p)) {
        case Fail(a) => Fail(a)
        case Ok(param, p1) =>
          match ParamsTailAt(toks, p1) {
            case Fail(a) => Fail(a)
            case Ok(rest, q) => Ok([param] + rest, q)
          }
      }
    else if t == OpRParent then Ok([], Next(toks, p))
    else Error(toks, p)
  }

  // ---------------------------------------------------------------- types

  /** type -> id | logical | integer | string | arr '[' int_const ']' type */
  function TypeAt(toks: seq<Symbol>, p: nat): (r: Outcome<Type>)
    requires WellFormed(toks) && p < |toks|
    ensures Advances(toks, p, r)
    decreases |toks| - p, 0
  {
    var sym := toks[p];
    var t := sym.tokenType;
    if t == Identifier then Ok(TypeName(sym.position, sym.lexeme), Next(toks, p))
    else if t == AtLogical then Ok(Atom(sym.position, Log), Next(toks, p))
    else if t == AtInteger then Ok(Atom(sym.position, Int), Next(toks, p))
    else if t == AtString then Ok(Atom(sym.position, Str), Next(toks, p))
    else if t == KwArr then
      var p1 := Next(toks, p);
      if toks[p1].tokenType != OpLBracket then Error(toks, p1) else
      var p2 := Next(toks, p1);
      if toks[p2].tokenType != CInteger then Error(toks, p2) else
      match Numbers.ParseInt(toks[p2].lexeme) {
        case None => Fail(MalformedNumber(toks[p2].position))
        case Some(size) =>
          var p3 := Next(toks, p2);
          if toks[p3].tokenType != OpRBracket then Error(toks, p3) else
          match TypeAt(toks, Next(toks, p3)) {
            case Fail(a) => Fail(a)
            case Ok(elem, q) => Ok(Array(Position(sym.position.start, elem.position.end), size, elem), q)
          }
      }
    else Error(toks, p)
  }

  // ---------------------------------------------------------------- expressions
  // An expression production yields None where the source returns null.

  /** expr -> logical_ior_expr expr2 */
  function ExprAt(toks: seq<Symbol>, p: nat): (r: Outcome<Option<Expr>>)
    requires WellFormed(toks) && p < |toks|
    ensures Advances(toks, p, r)
    decreases |toks| - p, 10
  {
    match IorAt(toks, p) {
      case Fail(a) => Fail(a)
      case Ok(ior, p1) =>
        match ExprTailAt(toks, p1, ior) {
          case Fail(a) => Fail(a)
          case Ok(where, q) => if where.None? then Ok(ior, q) else Ok(where, q)
        }
    }
  }

  /** expr2 -> '{' where defs '}' | (empty) */
  function ExprTailAt(toks: seq<Symbol>, p: nat, ior: Option<Expr>): (r: Outcome<Option<Expr>>)
    requires WellFormed(toks) && p < |toks|
    ensures Advances(toks, p, r)
    decreases |toks| - p, 1
  {
    if toks[p].tokenType == OpLBrace then
      var p1 := Next(toks, p);
      if toks[p1].tokenType != KwWhere then Error(toks, p1) else
      match DefsAt(toks, Next(toks, p1)) {
        case Fail(a) => Fail(a)
        case Ok(defs, p2) =>
          if toks[p2].tokenType != OpRBrace then Error(toks, p2) else
          var q := Next(toks, p2);
          if ior.None? then Missing(toks, q) else
          Ok(Some(Where(Position(ior.value.position.start, toks[q].position.end), ior.value, defs)), q)
      }
    else if ExprFollow(toks[p].tokenType) then Ok(None, p) else Error(toks, p)
  }

  /** logical_ior_expr -> logical_and_expr logical_ior_expr2 */
  function IorAt(toks: seq<Symbol>, p: nat): (r: Outcome<Option<Expr>>)
    requires WellFormed(toks) && p < |toks|
    ensures Advances(toks, p, r) && (r.Ok? ==> IorFollow(toks[r.next].tokenType))
    decreases |toks| - p, 9
  {
    match AndAt(toks, p) {
      case Fail(a) => Fail(a)
      case Ok(left, p1) =>
        match IorTailAt(toks, p1) {
          case Fail(a) => Fail(a)
          case Ok(tail, q) =>
            if tail.None? then Ok(left, q)
            else if left.None? then Missing(toks, q)
            else Ok(Some(Binary(Position(left.value.position.start, tail.value.position.end), left.value, Or, tail.value)), q)
        }
    }
  }

  /** logical_ior_expr2 -> '|' logical_and_expr logical_ior_expr2 | (empty) */
  function IorTailAt(toks: seq<Symbol>, p: nat): (r: Outcome<Option<Expr>>)
    requires WellFormed(toks) && p < |toks|
    ensures Advances(toks, p, r) && (r.Ok? ==> IorFollow(toks[r.next].tokenType))
    decreases |toks| - p, 1
  {
    if toks[p].tokenType == OpOr then
      match AndAt(toks, Next(toks, p)) {
        case Fail(a) => Fail(a)
        case Ok(left, p1) =>
          match IorTailAt(toks, p1) {
            case Fail(a) => Fail(a)
            case Ok(tail, q) =>
              if tail.None? then Ok(left, q)
              else if left.None? then Missing(toks, q)
              else Ok(Some(Binary(Position(left.value.position.start, tail.value.position.end), left.value, Or, tail.value)), q)
          }
      }
    else if IorFollow(toks[p].tokenType) then Ok(None, p) else Error(toks, p)
  }

  /** logical_and_expr -> compare_expr logical_and_expr2 */
  function AndAt(toks: seq<Symbol>, p: nat): (r: Outcome<Option<Expr>>)
    requires WellFormed(toks) && p < |toks|
    ensures Advances(toks, p, r) && (r.Ok? ==> AndFollow(toks[r.next].tokenType))
    decreases |toks| - p, 8
  {
    match CompareAt(toks, p) {
      case Fail(a) => Fail(a)
      case Ok(left, p1) =>
        match AndTailAt(toks, p1) {
          case Fail(a) => Fail(a)
          case Ok(tail, q) =>
            if tail.None? then Ok(left, q)
            else if left.None? then Missing(toks, q)
            else Ok(Some(Binary(Position(left.value.position.start, tail.value.position.end), left.value, And, tail.value)), q)
        }
    }
  }

  /** logical_and_expr2 -> '&' compare_expr logical_and_expr2 | (empty) */
  function AndTailAt(toks: seq<Symbol>, p: nat): (r: Outcome<Option<Expr>>)
    requires WellFormed(toks) && p < |toks|
    ensures Advances(toks, p, r) && (r.Ok? ==> AndFollow(toks[r.next].tokenType))
    decreases |toks| - p, 1
  {
    if toks[p].tokenType == OpAnd then
      match CompareAt(toks, Next(toks, p)) {
        case Fail(a) => Fail(a)
        case Ok(left, p1) =>
          match AndTailAt(toks, p1) {
            case Fail(a) => Fail(a)
            case Ok(tail, q) =>
              if tail.None? then Ok(left, q)
              else if left.None? then Missing(toks, q)
              else Ok(Some(Binary(Position(left.value.position.start, tail.value.position.end), left.value, And, tail.value)), q)
          }
      }
    else if AndFollow(toks[p].tokenType) then Ok(None, p) else Error(toks, p)
  }

  /** compare_expr -> add_expr compare_expr2 */
  function CompareAt(toks: seq<Symbol>, p: nat): (r: Outcome<Option<Expr>>)
    requires WellFormed(toks) && p < |toks|
    ensures Advances(toks, p, r) && (r.Ok? ==> AddFollow(toks[r.next].tokenType))
    decreases |toks| - p, 7
  {
    match AddAt(toks, p) {
      case Fail(a) => Fail(a)
      case Ok(left, p1) =>
        match CompareTailAt(toks, p1) {
          case Fail(a) => Fail(a)
          case Ok(tail, q) =>
            if tail.None? then Ok(left, q)
            else if left.None? then Missing(toks, q)
            else Ok(Some(Binary(Position(left.value.position.start, tail.value.position.end),
                                left.value, tail.value.op, tail.value.right)), q)
        }
    }
  }

  /**
   * compare_expr2 -> ('==' | '!=' | '<=' | '>=' | '<' | '>') add_expr | (empty).
   * The node it returns only carries the operator and the right operand to compare_expr.
   */
  function CompareTailAt(toks: seq<Symbol>, p: nat): (r: Outcome<Option<Expr>>)
    requires WellFormed(toks) && p < |toks|
    ensures Advances(toks, p, r) && (r.Ok? ==> AddFollow(toks[r.next].tokenType))
    ensures r.Ok? && r.value.Some? ==>
      r.value.value.Binary? && IsComparison(toks[p].tokenType) && r.value.value.op == CompareOp(toks[p].tokenType)
    decreases |toks| - p, 1
  {
    var t := toks[p].tokenType;
    if IsComparison(t) then
      var start := toks[p].position.start;
      match AddAt(toks, Next(toks, p)) {
        case Fail(a) => Fail(a)
        case Ok(right, q) =>
          if right.None? then Missing(toks, q) else
          Ok(Some(Binary(Position(start, right.value.position.end), right.value, CompareOp(t), right.value)), q)
      }
    else if CompareFollow(t) then Ok(None, p)
    else Error(toks, p)
  }

  /** add_expr -> mul_expr add_expr2 */
  function AddAt(toks: seq<Symbol>, p: nat): (r: Outcome<Option<Expr>>)
    requires WellFormed(toks) && p < |toks|
    ensures Advances(toks, p, r) && (r.Ok? ==> AddFollow(toks[r.next].tokenType))
    decreases |toks| - p, 6
  {
    match MulAt(toks, p) {
      case Fail(a) => Fail(a)
      case Ok(left, p1) =>
        match AddTailAt(toks, p1) {
          case Fail(a) => Fail(a)
          case Ok(tail, q) =>
            if tail.None? then Ok(left, q)
            else if left.None? then Missing(toks, q)
            else Ok(Some(Binary(Position(left.value.position.start, tail.value.position.end),
                                left.value, tail.value.op, tail.value)), q)
        }
    }
  }

  /**
   * add_expr2 -> ('+' | '-') mul_expr add_expr2 | (empty), building its node as the source
   * does: the operand twice when the tail ends, else the operand and the inner tail under the
   * inner tail's operator.
   */
  function AddTailAt(toks: seq<Symbol>, p: nat): (r: Outcome<Option<Expr>>)
    requires WellFormed(toks) && p < |toks|
    ensures Advances(toks, p, r) && (r.Ok? ==> AddFollow(toks[r.next].tokenType))
    ensures r.Ok? && r.value.Some? ==> r.value.value.Binary?
    decreases |toks| - p, 1
  {
    var t := toks[p].tokenType;
    if IsAdditive(t) then
      match MulAt(toks, Next(toks, p)) {
        case Fail(a) => Fail(a)
        case Ok(left, p1) =>
          match AddTailAt(toks, p1) {
            case Fail(a) => Fail(a)
            case Ok(tail, q) =>
              if left.None? then Missing(toks, q)
              else if tail.None? then
                Ok(Some(Binary(Position(left.value.position.start, left.value.position.end), left.value, AddOp(t), left.value)), q)
              else
                Ok(Some(Binary(Position(left.value.position.start, tail.value.position.end), left.value, tail.value.op, tail.value)), q)
          }
      }
    else if AddFollow(t) then Ok(None, p)
    else Error(toks, p)
  }

  /** mul_expr -> pre_expr mul_expr2 */
  function MulAt(toks: seq<Symbol>, p: nat): (r: Outcome<Option<Expr>>)
    requires WellFormed(toks) && p < |toks|
    ensures Advances(toks, p, r) && (r.Ok? ==> MulFollow(toks[r.next].tokenType))
    decreases |toks| - p, 5
  {
    match PreAt(toks, p) {
      case Fail(a) => Fail(a)
      case Ok(left, p1) =>
        match MulTailAt(toks, p1) {
          case Fail(a) => Fail(a)
          case Ok(tail, q) =>
            if tail.None? then Ok(left, q)
            else if left.None? then Missing(toks, q)
            else Ok(Some(Binary(Position(left.value.position.start, tail.value.position.end),
                                left.value, tail.value.op, tail.value)), q)
        }
    }
  }

  /**
   * mul_expr2 -> ('*' | '/' | '%') pre_expr mul_expr2 | (empty), building its node as the
   * source does: the operand twice under its own operator, the inner tail only giving the end.
   */
  function MulTailAt(toks: seq<Symbol>, p: nat): (r: Outcome<Option<Expr>>)
    requires WellFormed(toks) && p < |toks|
    ensures Advances(toks, p, r) && (r.Ok? ==> MulFollow(toks[r.next].tokenType))
    ensures r.Ok? && r.value.Some? ==> r.value.value.Binary?
    decreases |toks| - p, 1
  {
    var t := toks[p].tokenType;
    if IsMultiplicative(t) then
      match PreAt(toks, Next(toks, p)) {
        case Fail(a) => Fail(a)
        case Ok(left, p1) =>
          match MulTailAt(toks, p1) {
            case Fail(a) => Fail(a)
            case Ok(tail, q) =>
              if left.None? then Missing(toks, q)
              else if tail.None? then
                Ok(Some(Binary(Position(left.value.position.start, left.value.position.end), left.value, MulOp(t), left.value)), q)
              else
                Ok(Some(Binary(Position(left.value.position.start, tail.value.position.end), left.value, MulOp(t), left.value)), q)
          }
      }
    else if MulFollow(t) then Ok(None, p)
    else Error(toks, p)
  }

  /** pre_expr -> ('+' | '-' | '!') pre_expr | post_expr */
  function PreAt(toks: seq<Symbol>, p: nat): (r: Outcome<Option<Expr>>)
    requires WellFormed(toks) && p < |toks|
    ensures Advances(toks, p, r) && (r.Ok? ==> PostFollow(toks[r.next].tokenType))
    decreases |toks| - p, 4
  {
    var t := toks[p].tokenType;
    if IsPrefix(t) then
      var start := toks[p].position.start;
      match PreAt(toks, Next(toks, p)) {
        case Fail(a) => Fail(a)
        case Ok(operand, q) =>
          if operand.None? then Missing(toks, q) else
          Ok(Some(Unary(Position(start, operand.value.position.end), operand.value, PrefixOp(t))), q)
      }
    else if PostStart(t) then PostAt(toks, p)
    else Error(toks, p)
  }

  /** post_expr -> atom_expr post_expr2; the indexing tail is parsed and its result dropped */
  function PostAt(toks: seq<Symbol>, p: nat): (r: Outcome<Option<Expr>>)
    requires WellFormed(toks) && p < |toks|
    ensures Advances(toks, p, r) && (r.Ok? ==> PostFollow(toks[r.next].tokenType))
    decreases |toks| - p, 3
  {
    match AtomAt(toks, p) {
      case Fail(a) => Fail(a)
      case Ok(atom, p1) =>
        match PostTailAt(toks, p1) {
          case Fail(a) => Fail(a)
          case Ok(_, q) => Ok(atom, q)
        }
    }
  }

  /** post_expr2 -> '[' expr ']' post_expr2 | (empty); it never yields a node */
  function PostTailAt(toks: seq<Symbol>, p: nat): (r: Outcome<()>)
    requires WellFormed(toks) && p < |toks|
    ensures Advances(toks, p, r) && (r.Ok? ==> PostFollow(toks[r.next].tokenType))
    decreases |toks| - p, 1
  {
    if toks[p].tokenType == OpLBracket then
      match ExprAt(toks, Next(toks, p)) {
        case Fail(a) => Fail(a)
        case Ok(_, p1) =>
          if toks[p1].tokenType != OpRBracket then Error(toks, p1) else
          PostTailAt(toks, Next(toks, p1))
      }
    else if PostFollow(toks[p].tokenType) then Ok((), p) else Error(toks, p)
  }

  /** atom_expr -> constant | id atom_expr2 | '(' exprs ')' | '{' atom_expr3 */
  function AtomAt(toks: seq<Symbol>, p: nat): (r: Outcome<Option<Expr>>)
    requires WellFormed(toks) && p < |toks|
    ensures Advances(toks, p, r)
    decreases |toks| - p, 2
  {
    var sym := toks[p];
    var t := sym.tokenType;
    if IsConstant(t) then Ok(Some(Literal(sym.position, sym.lexeme, ConstantKind(t))), Next(toks, p))
    else if t == Identifier then
      match AtomNameAt(toks, Next(toks, p), Name(sym.position, sym.lexeme)) {
        case Fail(a) => Fail(a)
        case Ok(e, q) => Ok(Some(e), q)
      }
    else if t == OpLParent then
      match ExprsAt(toks, Next(toks, p)) {
        case Fail(a) => Fail(a)
        case Ok(exprs, p1) =>
          if toks[p1].tokenType != OpRParent then Error(toks, p1) else
          Ok(Some(Block(Position(sym.position.start, toks[p1].position.end), exprs.expressions)), Next(toks, p1))
      }
    else if t == OpLBrace then AtomBraceAt(toks, Next(toks, p))
    else Error(toks, p)
  }

  /** atom_expr2 -> '(' exprs ')' | (empty): a call, or the name itself */
  function AtomNameAt(toks: seq<Symbol>, p: nat, id: Expr): (r: Outcome<Expr>)
    requires WellFormed(toks) && p < |toks| && id.Name?
    ensures Advances(toks, p, r)
    decreases |toks| - p, 1
  {
    if toks[p].tokenType == OpLParent then
      match ExprsAt(toks, Next(toks, p)) {
        case Fail(a) => Fail(a)
        case Ok(exprs, p1) =>
          if toks[p1].tokenType != OpRParent then Error(toks, p1) else
          Ok(Call(Position(id.position.start, toks[p1].position.end), exprs.expressions, id.name), Next(toks, p1))
      }
    else if NameFollow(toks[p].tokenType) then Ok(id, p) else Error(toks, p)
  }

  /**
   * atom_expr3 -> if expr then expr atom_expr4 | while expr ':' expr '}'
   *             | for id '=' expr ',' expr ',' expr ':' expr '}' | expr '=' expr '}'.
   * The last (assignment) branch parses both sides and yields no node.
   */
  function AtomBraceAt(toks: seq<Symbol>, p: nat): (r: Outcome<Option<Expr>>)
    requires WellFormed(toks) && p < |toks|
    ensures Advances(toks, p, r)
    decreases |toks| - p, 12
  {
    var t := toks[p].tokenType;
    if t == KwIf then IfAt(toks, p)
    else if t == KwWhile then WhileAt(toks, p)
    else if t == KwFor then ForAt(toks, p)
    else if AssignmentStart(t) then AssignmentAt(toks, p)
    else Error(toks, p)
  }

  /** The `if` branch of atom_expr3. */
  function IfAt(toks: seq<Symbol>, p: nat): (r: Outcome<Option<Expr>>)
    requires WellFormed(toks) && p < |toks|
    ensures Advances(toks, p, r)
    decreases |toks| - p, 11
  {
    var start := toks[p].position.start;
    match ExprAt(toks, Next(toks, p)) {
      case Fail(a) => Fail(a)
      case Ok(cond, p1) =>
        if toks[p1].tokenType != KwThen then Error(toks, p1) else
        match ExprAt(toks, Next(toks, p1)) {
          case Fail(a) => Fail(a)
          case Ok(thenExpr, p2) =>
            match IfElseAt(toks, p2) {
              case Fail(a) => Fail(a)
              case Ok(elseExpr, q) =>
                if cond.None? || thenExpr.None? then Missing(toks, q) else
                Ok(Some(IfThenElse(Position(start, elseExpr.position.end), cond.value, thenExpr.value, elseExpr)), q)
            }
        }
    }
  }

  /** The `while` branch of atom_expr3. */
  function WhileAt(toks: seq<Symbol>, p: nat): (r: Outcome<Option<Expr>>)
    requires WellFormed(toks) && p < |toks|
    ensures Advances(toks, p, r)
    decreases |toks| - p, 11
  {
    var start := toks[p].position.start;
    match ExprAt(toks, Next(toks, p)) {
      case Fail(a) => Fail(a)
      case Ok(cond, p1) =>
        if toks[p1].tokenType != OpColon then Error(toks, p1) else
        match ExprAt(toks, Next(toks, p1)) {
          case Fail(a) => Fail(a)
          case Ok(body, p2) =>
            if toks[p2].tokenType != OpRBrace then Error(toks, p2) else
            var q := Next(toks, p2);
            if cond.None? || body.None? then Missing(toks, q) else
            Ok(Some(While(Position(start, toks[p2].position.end), cond.value, body.value)), q)
        }
    }
  }

  /** The `for` branch of atom_expr3, up to its `=`: `for id '='`. */
  function ForAt(toks: seq<Symbol>, p: nat): (r: Outcome<Option<Expr>>)
    requires WellFormed(toks) && p < |toks|
    ensures Advances(toks, p, r)
    decreases |toks| - p, 11
  {
    var start := toks[p].position.start;
    var p1 := Next(toks, p);
    if toks[p1].tokenType != Identifier then Error(toks, p1) else
    var counter := Name(toks[p1].position, toks[p1].lexeme);
    var p2 := Next(toks, p1);
    if toks[p2].tokenType != OpAssign then Error(toks, p2) else
    ForBoundsAt(toks, Next(toks, p2), start, counter)
  }

  /** The bounds of the `for` branch: `expr ',' expr ','`. */
  function ForBoundsAt(toks: seq<Symbol>, p: nat, start: Location, counter: Expr): (r: Outcome<Option<Expr>>)
    requires WellFormed(toks) && p < |toks|
    ensures Advances(toks, p, r)
    decreases |toks| - p, 11
  {
    match ExprAt(toks, p) {
      case Fail(a) => Fail(a)
      case Ok(low, p3) =>
        if toks[p3].tokenType != OpComma then Error(toks, p3) else
        match ExprAt(toks, Next(toks, p3)) {
          case Fail(a) => Fail(a)
          case Ok(high, p4) =>
            if toks[p4].tokenType != OpComma then Error(toks, p4) else
            ForStepAt(toks, Next(toks, p4), start, counter, low, high)
        }
    }
  }

  /** The rest of the `for` branch: `expr ':' expr '}'`, the step and the body. */
  function ForStepAt(toks: seq<Symbol>, p: nat, start: Location, counter: Expr,
                     low: Option<Expr>, high: Option<Expr>): (r: Outcome<Option<Expr>>)
    requires WellFormed(toks) && p < |toks|
    ensures Advances(toks, p, r)
    decreases |toks| - p, 11
  {
    match ExprAt(toks, p) {
      case Fail(a) => Fail(a)
      case Ok(step, p5) =>
        if toks[p5].tokenType != OpColon then Error(toks, p5) else
        match ExprAt(toks, Next(toks, p5)) {
          case Fail(a) => Fail(a)
          case Ok(body, p6) =>
            if toks[p6].tokenType != OpRBrace then Error(toks, p6) else
            var q := Next(toks, p6);
            if low.None? || high.None? || step.None? || body.None? then Missing(toks, q) else
            Ok(Some(For(Position(start, toks[p6].position.end), counter,
                        low.value, high.value, step.value, body.value)), q)
        }
    }
  }

  /** The assignment branch of atom_expr3: `expr '=' expr '}'`, yielding no node. */
  function AssignmentAt(toks: seq<Symbol>, p: nat): (r: Outcome<Option<Expr>>)
    requires WellFormed(toks) && p < |toks|
    ensures Advances(toks, p, r)
    decreases |toks| - p, 11
  {
    match ExprAt(toks, p) {
      case Fail(a) => Fail(a)
      case Ok(_, p1) =>
        if toks[p1].tokenType != OpAssign then Error(toks, p1) else
        match ExprAt(toks, Next(toks, p1)) {
          case Fail(a) => Fail(a)
          case Ok(_, p2) =>
            if toks[p2].tokenType != OpRBrace then Error(toks, p2) else
            Ok(None, Next(toks, p2))
        }
    }
  }

  /** atom_expr4 -> '}' | else expr '}': the else part, always a block */
  function IfElseAt(toks: seq<Symbol>, p: nat): (r: Outcome<Expr>)
    requires WellFormed(toks) && p < |toks|
    ensures Advances(toks, p, r)
    decreases |toks| - p, 1
  {
    if toks[p].tokenType == OpRBrace then Ok(Block(toks[p].position, []), Next(toks, p))
    else if toks[p].tokenType == KwElse then
      match ExprAt(toks, Next(toks, p)) {
        case Fail(a) => Fail(a)
        case Ok(e, p1) =>
          if toks[p1].tokenType != OpRBrace then Error(toks, p1) else
          if e.None? then Missing(toks, p1) else
          Ok(Block(toks[p1].position, [e.value]), Next(toks, p1))
      }
    else Error(toks, p)
  }

  /** exprs -> expr exprs2; the result is a block of the expressions */
  function ExprsAt(toks: seq<Symbol>, p: nat): (r: Outcome<Expr>)
    requires WellFormed(toks) && p < |toks|
    ensures Advances(toks, p, r)
    ensures r.Ok? ==> r.value.Block?
    decreases |toks| - p, 11
  {
    match ExprAt(toks, p) {
      case Fail(a) => Fail(a)
      case Ok(e, p1) =>
        if e.None? then Missing(toks, p1) else
        match ExprsTailAt(toks, p1) {
          case Fail(a) => Fail(a)
          case Ok(tail, q) =>
            Ok(Block(Position(e.value.position.start, tail.position.end), [e.value] + tail.expressions), q)
        }
    }
  }

  /** exprs2 -> ',' expr exprs2 | (empty, before ')', which is left for the caller) */
  function ExprsTailAt(toks: seq<Symbol>, p: nat): (r: Outcome<Expr>)
    requires WellFormed(toks) && p < |toks|
    ensures Advances(toks, p, r)
    ensures r.Ok? ==> r.value.Block?
    decreases |toks| - p, 1
  {
    if toks[p].tokenType == OpComma then
      match ExprAt(toks, Next(toks, p)) {
        case Fail(a) => Fail(a)
        case Ok(e, p1) =>
          if e.None? then Missing(toks, p1) else
          match ExprsTailAt(toks, p1) {
            case Fail(a) => Fail(a)
            case Ok(tail, q) =>
              Ok(Block(Position(e.value.position.start, tail.position.end), [e.value] + tail.expressions), q)
          }
      }
    else if toks[p].tokenType == OpRParent then Ok(Block(toks[p].position, []), p)
    else Error(toks, p)
  }
}
