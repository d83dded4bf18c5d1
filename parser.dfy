/**
 * The parser as the source writes it: an object holding the symbol list and a cursor that
 * the parsing methods move forward, one method per production. Every method is specified
 * by the production function of module Grammar it mirrors: when the function succeeds with
 * a node and a cursor, the method returns that node and leaves the cursor there; when the
 * function aborts, the method aborts for the same reason.
 */
module Parsing {
  import opened Tokens
  import opened Ast
  import opened Outcomes
  import opened Grammar

  class Parser {
    /** The lexical symbols, closed by EOF. */
    const symbols: seq<Symbol>
    /** The index of the symbol under the cursor. */
    var pos: nat

    ghost predicate Valid()
      reads this
    {
      WellFormed(symbols) && pos < |symbols|
    }

    constructor(symbols: seq<Symbol>)
      requires WellFormed(symbols)
      ensures Valid()
      ensures this.symbols == symbols && pos == 0
    {
      this.symbols := symbols;
      pos := 0;
    }

    /** The symbol under the cursor: EOF once the cursor stands last, and skipping anything else advances. */
    function GetSymbol(): (s: Symbol)
      reads this
      requires Valid()
      ensures s in symbols
      ensures pos == |symbols| - 1 ==> s.tokenType == Eof
      ensures s.tokenType != Eof ==> Next(symbols, pos) == pos + 1
    {
      symbols[pos]
    }

    /** The kind of the symbol under the cursor, with the same two facts as `GetSymbol`. */
    function Check(): (t: TokenType)
      reads this
      requires Valid()
      ensures pos == |symbols| - 1 ==> t == Eof
      ensures t != Eof ==> Next(symbols, pos) == pos + 1
    {
      GetSymbol().tokenType
    }

    /** An abort at the symbol under the cursor. */
    function ErrorHere<T>(): Result<T>
      reads this
      requires Valid()
    {
      Failure(SyntaxError(symbols[pos].position))
    }

    /** A missing node noticed while the cursor stands where it does. */
    function MissingHere<T>(): Result<T>
      reads this
      requires Valid()
    {
      Failure(MissingNode(symbols[pos].position))
    }

    /** Moves the cursor to the next symbol, unless it stands on the last one. */
    method Skip()
      requires Valid()
      modifies this
      ensures Valid()
      ensures old(pos) <= pos
      ensures pos == Next(symbols, old(pos))
    {
      if pos < |symbols| - 1 {
        pos := pos + 1;
      }
    }

    /** Skips a symbol of kind `t`, or aborts where the cursor stands. */
    method Expect(t: TokenType) returns (s: Status)
      requires Valid()
      modifies this
      ensures Valid()
      ensures old(pos) <= pos
      ensures old(symbols[pos].tokenType) == t ==> s == Pass && pos == Next(symbols, old(pos))
      ensures old(symbols[pos].tokenType) != t ==> s == Stop(SyntaxError(symbols[pos].position)) && pos == old(pos)
    {
      if Check() == t {
        Skip();
        s := Pass;
      } else {
        s := Stop(SyntaxError(GetSymbol().position));
      }
    }

    /** Parses the whole symbol list as a source: a list of definitions. */
    method Parse() returns (r: Result<Defs>)
      requires Valid()
      modifies this
      ensures Valid()
      ensures old(pos) <= pos
      ensures Agrees(r, pos, DefsAt(symbols, old(pos)))
    {
      r := ParseSource();
    }

    method ParseSource() returns (r: Result<Defs>)
      requires Valid()
      modifies this
      ensures Valid()
      ensures old(pos) <= pos
      ensures Agrees(r, pos, DefsAt(symbols, old(pos)))
    {
      r := ParseDefs();
    }

    // ------------------------------------------------------------ definitions

    method ParseDefs() returns (r: Result<Defs>)
      requires Valid()
      modifies this
      ensures Valid()
      ensures old(pos) <= pos
      ensures Agrees(r, pos, DefsAt(symbols, old(pos)))
      decreases |symbols| - pos, 13
    {
      var def :- ParseDef();
      var tail :- ParseDefs2();
      r := Success(Defs(Position(def.position.start, ColumnBefore(tail.position.end)), [def] + tail.definitions));
    }

    method ParseDef() returns (r: Result<Def>)
      requires Valid()
      modifies this
      ensures Valid()
      ensures old(pos) <= pos
      ensures Agrees(r, pos, DefAt(symbols, old(pos)))
      decreases |symbols| - pos, 12
    {
      var t := Check();
      if t == KwTyp {
        r := ParseTypeDef();
      } else if t == KwFun {
        r := ParseFunDef();
      } else if t == KwVar {
        r := ParseVarDef();
      } else {
        r := ErrorHere();
      }
    }

    method ParseDefs2() returns (r: Result<Defs>)
      requires Valid()
      modifies this
      ensures Valid()
      ensures old(pos) <= pos
      ensures Agrees(r, pos, DefsTailAt(symbols, old(pos)))
      decreases |symbols| - pos, 1
    {
      var t := Check();
      if t == OpSemicolon {
        Skip();
        var def :- ParseDef();
        var tail :- ParseDefs2();
        r := Success(Defs(Position(def.position.start, tail.position.end), [def] + tail.definitions));
      } else if t == Eof {
        var here := GetSymbol().position;
        Skip();
        r := Success(Defs(Position(here.start, here.end), []));
      } else if t == OpRBrace {
        var here := GetSymbol().position;
        r := Success(Defs(Position(here.start, here.end), []));
      } else {
        r := ErrorHere();
      }
    }

    method ParseTypeDef() returns (r: Result<Def>)
      requires Valid()
      modifies this
      ensures Valid()
      ensures old(pos) <= pos
      ensures Agrees(r, pos, TypeDefAt(symbols, old(pos)))
      decreases |symbols| - pos, 1
    {
      var start := GetSymbol().position.start;
      Skip();
      if Check() != Identifier {
        r := ErrorHere();
        return;
      }
      var name := GetSymbol().lexeme;
      Skip();
      :- Expect(OpColon);
      var t :- ParseType();
      r := Success(TypeDef(Position(start, t.position.end), name, t));
    }

    method ParseVarDef() returns (r: Result<Def>)
      requires Valid()
      modifies this
      ensures Valid()
      ensures old(pos) <= pos
      ensures Agrees(r, pos, VarDefAt(symbols, old(pos)))
      decreases |symbols| - pos, 1
    {
      var start := GetSymbol().position.start;
      Skip();
      if Check() != Identifier {
        r := ErrorHere();
        return;
      }
      var name := GetSymbol().lexeme;
      Skip();
      :- Expect(OpColon);
      var t :- ParseType();
      r := Success(VarDef(Position(start, t.position.end), name, t));
    }

    method ParseFunDef() returns (r: Result<Def>)
      requires Valid()
      modifies this
      ensures Valid()
      ensures old(pos) <= pos
      ensures Agrees(r, pos, FunDefAt(symbols, old(pos)))
      decreases |symbols| - pos, 11
    {
      var start := GetSymbol().position.start;
      Skip();
      if Check() != Identifier {
        r := ErrorHere();
        return;
      }
      var name := GetSymbol().lexeme;
      Skip();
      :- Expect(OpLParent);
      var params :- ParseParams();
      :- Expect(OpColon);
      var t :- ParseType();
      :- Expect(OpAssign);
      var body :- ParseExpr();
      if body.None? {
        r := MissingHere();
        return;
      }
      r := Success(FunDef(Position(start, body.value.position.end), name, params, t, body.value));
    }

    method ParseParams() returns (r: Result<seq<Parameter>>)
      requires Valid()
      modifies this
      ensures Valid()
      ensures old(pos) <= pos
      ensures Agrees(r, pos, ParamsAt(symbols, old(pos)))
      decreases |symbols| - pos, 3
    {
      var param :- ParseParam();
      var rest :- ParseParams2();
      r := Success([param] + rest);
    }

    method ParseParam() returns (r: Result<Parameter>)
      requires Valid()
      modifies this
      ensures Valid()
      ensures old(pos) <= pos
      ensures Agrees(r, pos, ParamAt(symbols, old(pos)))
      decreases |symbols| - pos, 1
    {
      if Check() != Identifier {
        r := ErrorHere();
        return;
      }
      var start := GetSymbol().position.start;
      var name := GetSymbol().lexeme;
      Skip();
      :- Expect(OpColon);
      var t :- ParseType();
      r := Success(Parameter(Position(start, t.position.end), name, t));
    }

    method ParseParams2() returns (r: Result<seq<Parameter>>)
      requires Valid()
      modifies this
      ensures Valid()
      ensures old(pos) <= pos
      ensures Agrees(r, pos, ParamsTailAt(symbols, old(pos)))
      decreases |symbols| - pos, 2
    {
      var t := Check();
      if t == OpComma {
        Skip();
        var param :- ParseParam();
        var rest :- ParseParams2();
        r := Success([param] + rest);
      } else if t == OpRParent {
        Skip();
        r := Success([]);
      } else {
        r := ErrorHere();
      }
    }

    // ------------------------------------------------------------ types

    method ParseType() returns (r: Result<Type>)
      requires Valid()
      modifies this
      ensures Valid()
      ensures old(pos) <= pos
      ensures Agrees(r, pos, TypeAt(symbols, old(pos)))
      decreases |symbols| - pos, 0
    {
      var sym := GetSymbol();
      var t := sym.tokenType;
      if t == Identifier {
        Skip();
        r := Success(TypeName(sym.position, sym.lexeme));
      } else if t == AtLogical {
        Skip();
        r := Success(Atom(sym.position, Log));
      } else if t == AtInteger {
        Skip();
        r := Success(Atom(sym.position, Int));
      } else if t == AtString {
        Skip();
        r := Success(Atom(sym.position, Str));
      } else if t == KwArr {
        Skip();
        :- Expect(OpLBracket);
        if Check() != CInteger {
          r := ErrorHere();
          return;
        }
        var size := Numbers.ParseInt(GetSymbol().lexeme);
        if size.None? {
          r := Failure(MalformedNumber(GetSymbol().position));
          return;
        }
        Skip();
        :- Expect(OpRBracket);
        var elem :- ParseType();
        r := Success(Array(Position(sym.position.start, elem.position.end), size.value, elem));
      } else {
        r := ErrorHere();
      }
    }

    // ------------------------------------------------------------ expressions

    method ParseExpr() returns (r: Result<Option<Expr>>)
      requires Valid()
      modifies this
      ensures Valid()
      ensures old(pos) <= pos
      ensures Agrees(r, pos, ExprAt(symbols, old(pos)))
      decreases |symbols| - pos, 10
    {
      var ior :- ParseLogicalIorExpr();
      var where :- ParseExpr2(ior);
      r := Success(if where.None? then ior else where);
    }

    method ParseExpr2(ior: Option<Expr>) returns (r: Result<Option<Expr>>)
      requires Valid()
      modifies this
      ensures Valid()
      ensures old(pos) <= pos
      ensures Agrees(r, pos, ExprTailAt(symbols, old(pos), ior))
      decreases |symbols| - pos, 1
    {
      var t := Check();
      if t == OpLBrace {
        Skip();
        :- Expect(KwWhere);
        var defs :- ParseDefs();
        :- Expect(OpRBrace);
        if ior.None? {
          r := MissingHere();
          return;
        }
        r := Success(Some(Where(Position(ior.value.position.start, GetSymbol().position.end), ior.value, defs)));
      } else if ExprFollow(t) {
        r := Success(None);
      } else {
        r := ErrorHere();
      }
    }

    method ParseLogicalIorExpr() returns (r: Result<Option<Expr>>)
      requires Valid()
      modifies this
      ensures Valid()
      ensures old(pos) <= pos
      ensures Agrees(r, pos, IorAt(symbols, old(pos)))
      decreases |symbols| - pos, 9
    {
      var left :- ParseLogicalAndExpr();
      var tail :- ParseLogicalIorExpr2();
      if tail.None? {
        r := Success(left);
      } else if left.None? {
        r := MissingHere();
      } else {
        r := Success(Some(Binary(Position(left.value.position.start, tail.value.position.end), left.value, Or, tail.value)));
      }
    }

    method ParseLogicalIorExpr2() returns (r: Result<Option<Expr>>)
      requires Valid()
      modifies this
      ensures Valid()
      ensures old(pos) <= pos
      ensures Agrees(r, pos, IorTailAt(symbols, old(pos)))
      decreases |symbols| - pos, 1
    {
      var t := Check();
      if t == OpOr {
        Skip();
        var left :- ParseLogicalAndExpr();
        var tail :- ParseLogicalIorExpr2();
        if tail.None? {
          r := Success(left);
        } else if left.None? {
          r := MissingHere();
        } else {
          r := Success(Some(Binary(Position(left.value.position.start, tail.value.position.end), left.value, Or, tail.value)));
        }
      } else if IorFollow(t) {
        r := Success(None);
      } else {
        r := ErrorHere();
      }
    }

    method ParseLogicalAndExpr() returns (r: Result<Option<Expr>>)
      requires Valid()
      modifies this
      ensures Valid()
      ensures old(pos) <= pos
      ensures Agrees(r, pos, AndAt(symbols, old(pos)))
      decreases |symbols| - pos, 8
    {
      var left :- ParseCompareExpr();
      var tail :- ParseLogicalAndExpr2();
      if tail.None? {
        r := Success(left);
      } else if left.None? {
        r := MissingHere();
      } else {
        r := Success(Some(Binary(Position(left.value.position.start, tail.value.position.end), left.value, And, tail.value)));
      }
    }

    method ParseLogicalAndExpr2() returns (r: Result<Option<Expr>>)
      requires Valid()
      modifies this
      ensures Valid()
      ensures old(pos) <= pos
      ensures Agrees(r, pos, AndTailAt(symbols, old(pos)))
      decreases |symbols| - pos, 1
    {
      var t := Check();
      if t == OpAnd {
        Skip();
        var left :- ParseCompareExpr();
        var tail :- ParseLogicalAndExpr2();
        if tail.None? {
          r := Success(left);
        } else if left.None? {
          r := MissingHere();
        } else {
          r := Success(Some(Binary(Position(left.value.position.start, tail.value.position.end), left.value, And, tail.value)));
        }
      } else if AndFollow(t) {
        r := Success(None);
      } else {
        r := ErrorHere();
      }
    }

    method ParseCompareExpr() returns (r: Result<Option<Expr>>)
      requires Valid()
      modifies this
      ensures Valid()
      ensures old(pos) <= pos
      ensures Agrees(r, pos, CompareAt(symbols, old(pos)))
      decreases |symbols| - pos, 7
    {
      var left :- ParseAddExpr();
      var tail :- ParseCompareExpr2();
      if tail.None? {
        r := Success(left);
      } else if left.None? {
        r := MissingHere();
      } else {
        r := Success(Some(Binary(Position(left.value.position.start, tail.value.position.end),
                                 left.value, tail.value.op, tail.value.right)));
      }
    }

    method ParseCompareExpr2() returns (r: Result<Option<Expr>>)
      requires Valid()
      modifies this
      ensures Valid()
      ensures old(pos) <= pos
      ensures Agrees(r, pos, CompareTailAt(symbols, old(pos)))
      decreases |symbols| - pos, 1
    {
      var t := Check();
      if IsComparison(t) {
        var op := CompareOp(t);
        var start := GetSymbol().position.start;
        Skip();
        var right :- ParseAddExpr();
        if right.None? {
          r := MissingHere();
          return;
        }
        r := Success(Some(Binary(Position(start, right.value.position.end), right.value, op, right.value)));
      } else if CompareFollow(t) {
        r := Success(None);
      } else {
        r := ErrorHere();
      }
    }

    method ParseAddExpr() returns (r: Result<Option<Expr>>)
      requires Valid()
      modifies this
      ensures Valid()
      ensures old(pos) <= pos
      ensures Agrees(r, pos, AddAt(symbols, old(pos)))
      decreases |symbols| - pos, 6
    {
      var left :- ParseMulExpr();
      var tail :- ParseAddExpr2();
      if tail.None? {
        r := Success(left);
      } else if left.None? {
        r := MissingHere();
      } else {
        r := Success(Some(Binary(Position(left.value.position.start, tail.value.position.end),
                                 left.value, tail.value.op, tail.value)));
      }
    }

    method ParseAddExpr2() returns (r: Result<Option<Expr>>)
      requires Valid()
      modifies this
      ensures Valid()
      ensures old(pos) <= pos
      ensures Agrees(r, pos, AddTailAt(symbols, old(pos)))
      decreases |symbols| - pos, 1
    {
      var t := Check();
      if IsAdditive(t) {
        var op := AddOp(t);
        Skip();
        var left :- ParseMulExpr();
        var tail :- ParseAddExpr2();
        if left.None? {
          r := MissingHere();
        } else if tail.None? {
          r := Success(Some(Binary(Position(left.value.position.start, left.value.position.end), left.value, op, left.value)));
        } else {
          r := Success(Some(Binary(Position(left.value.position.start, tail.value.position.end), left.value, tail.value.op, tail.value)));
        }
      } else if AddFollow(t) {
        r := Success(None);
      } else {
        r := ErrorHere();
      }
    }

    method ParseMulExpr() returns (r: Result<Option<Expr>>)
      requires Valid()
      modifies this
      ensures Valid()
      ensures old(pos) <= pos
      ensures Agrees(r, pos, MulAt(symbols, old(pos)))
      decreases |symbols| - pos, 5
    {
      var left :- ParsePreExpr();
      var tail :- ParseMulExpr2();
      if tail.None? {
        r := Success(left);
      } else if left.None? {
        r := MissingHere();
      } else {
        r := Success(Some(Binary(Position(left.value.position.start, tail.value.position.end),
                                 left.value, tail.value.op, tail.value)));
      }
    }

    method ParseMulExpr2() returns (r: Result<Option<Expr>>)
      requires Valid()
      modifies this
      ensures Valid()
      ensures old(pos) <= pos
      ensures Agrees(r, pos, MulTailAt(symbols, old(pos)))
      decreases |symbols| - pos, 1
    {
      var t := Check();
      if IsMultiplicative(t) {
        var op := MulOp(t);
        Skip();
        var left :- ParsePreExpr();
        var tail :- ParseMulExpr2();
        if left.None? {
          r := MissingHere();
        } else if tail.None? {
          r := Success(Some(Binary(Position(left.value.position.start, left.value.position.end), left.value, op, left.value)));
        } else {
          r := Success(Some(Binary(Position(left.value.position.start, tail.value.position.end), left.value, op, left.value)));
        }
      } else if MulFollow(t) {
        r := Success(None);
      } else {
        r := ErrorHere();
      }
    }

    method ParsePreExpr() returns (r: Result<Option<Expr>>)
      requires Valid()
      modifies this
      ensures Valid()
      ensures old(pos) <= pos
      ensures Agrees(r, pos, PreAt(symbols, old(pos)))
      decreases |symbols| - pos, 4
    {
      var t := Check();
      if IsPrefix(t) {
        var start := GetSymbol().position.start;
        var op := PrefixOp(t);
        Skip();
        var operand :- ParsePreExpr();
        if operand.None? {
          r := MissingHere();
          return;
        }
        r := Success(Some(Unary(Position(start, operand.value.position.end), operand.value, op)));
      } else if PostStart(t) {
        r := ParsePostExpr();
      } else {
        r := ErrorHere();
      }
    }

    method ParsePostExpr() returns (r: Result<Option<Expr>>)
      requires Valid()
      modifies this
      ensures Valid()
      ensures old(pos) <= pos
      ensures Agrees(r, pos, PostAt(symbols, old(pos)))
      decreases |symbols| - pos, 3
    {
      var atom :- ParseAtomExpr();
      var _ :- ParsePostExpr2();
      r := Success(atom);
    }

    method ParsePostExpr2() returns (r: Result<()>)
      requires Valid()
      modifies this
      ensures Valid()
      ensures old(pos) <= pos
      ensures Agrees(r, pos, PostTailAt(symbols, old(pos)))
      decreases |symbols| - pos, 1
    {
      var t := Check();
      if t == OpLBracket {
        Skip();
        var _ :- ParseExpr();
        :- Expect(OpRBracket);
        r := ParsePostExpr2();
      } else if PostFollow(t) {
        r := Success(());
      } else {
        r := ErrorHere();
      }
    }

    method ParseAtomExpr() returns (r: Result<Option<Expr>>)
      requires Valid()
      modifies this
      ensures Valid()
      ensures old(pos) <= pos
      ensures Agrees(r, pos, AtomAt(symbols, old(pos)))
      decreases |symbols| - pos, 2
    {
      var sym := GetSymbol();
      var t := sym.tokenType;
      if IsConstant(t) {
        Skip();
        r := Success(Some(Literal(sym.position, sym.lexeme, ConstantKind(t))));
      } else if t == Identifier {
        Skip();
        var e :- ParseAtomExpr2(Name(sym.position, sym.lexeme));
        r := Success(Some(e));
      } else if t == OpLParent {
        r := ParseParenthesized();
      } else if t == OpLBrace {
        r := ParseBraced();
      } else {
        r := ErrorHere();
      }
    }

    /** The `(` exprs `)` case of an atom: the expressions become a block. */
    method ParseParenthesized() returns (r: Result<Option<Expr>>)
      requires Valid() && Check() == OpLParent
      modifies this
      ensures Valid()
      ensures old(pos) <= pos
      ensures Agrees(r, pos, AtomAt(symbols, old(pos)))
      decreases |symbols| - pos, 1
    {
      var start := GetSymbol().position.start;
      Skip();
      var exprs :- ParseExprs();
      if Check() != OpRParent {
        r := ErrorHere();
        return;
      }
      var end := GetSymbol().position.end;
      Skip();
      r := Success(Some(Block(Position(start, end), exprs.expressions)));
    }

    /** The `{` case of an atom: what follows the brace decides the construct. */
    method ParseBraced() returns (r: Result<Option<Expr>>)
      requires Valid() && Check() == OpLBrace
      modifies this
      ensures Valid()
      ensures old(pos) <= pos
      ensures Agrees(r, pos, AtomAt(symbols, old(pos)))
      decreases |symbols| - pos, 1
    {
      Skip();
      r := ParseAtomExpr3();
    }

    method ParseAtomExpr2(id: Expr) returns (r: Result<Expr>)
      requires Valid() && id.Name?
      modifies this
      ensures Valid()
      ensures old(pos) <= pos
      ensures Agrees(r, pos, AtomNameAt(symbols, old(pos), id))
      decreases |symbols| - pos, 1
    {
      var t := Check();
      if t == OpLParent {
        Skip();
        var exprs :- ParseExprs();
        if Check() != OpRParent {
          r := ErrorHere();
          return;
        }
        var end := GetSymbol().position.end;
        Skip();
        r := Success(Call(Position(id.position.start, end), exprs.expressions, id.name));
      } else if NameFollow(t) {
        r := Success(id);
      } else {
        r := ErrorHere();
      }
    }

    /** What follows `{` in an atom: a conditional, a loop or an assignment. */
    method ParseAtomExpr3() returns (r: Result<Option<Expr>>)
      requires Valid()
      modifies this
      ensures Valid()
      ensures old(pos) <= pos
      ensures Agrees(r, pos, AtomBraceAt(symbols, old(pos)))
      decreases |symbols| - pos, 12
    {
      var t := Check();
      if t == KwIf {
        r := ParseIf();
      } else if t == KwWhile {
        r := ParseWhile();
      } else if t == KwFor {
        r := ParseFor();
      } else if AssignmentStart(t) {
        r := ParseAssignment();
      } else {
        r := ErrorHere();
      }
    }

    method ParseIf() returns (r: Result<Option<Expr>>)
      requires Valid()
      modifies this
      ensures Valid()
      ensures old(pos) <= pos
      ensures Agrees(r, pos, IfAt(symbols, old(pos)))
      decreases |symbols| - pos, 11
    {
      var start := GetSymbol().position.start;
      Skip();
      var cond :- ParseExpr();
      :- Expect(KwThen);
      var thenExpr :- ParseExpr();
      var elseExpr :- ParseAtomExpr4();
      if cond.None? || thenExpr.None? {
        r := MissingHere();
        return;
      }
      r := Success(Some(IfThenElse(Position(start, elseExpr.position.end), cond.value, thenExpr.value, elseExpr)));
    }

    method ParseWhile() returns (r: Result<Option<Expr>>)
      requires Valid()
      modifies this
      ensures Valid()
      ensures old(pos) <= pos
      ensures Agrees(r, pos, WhileAt(symbols, old(pos)))
      decreases |symbols| - pos, 11
    {
      var start := GetSymbol().position.start;
      Skip();
      var cond :- ParseExpr();
      :- Expect(OpColon);
      var body :- ParseExpr();
      if Check() != OpRBrace {
        r := ErrorHere();
        return;
      }
      var end := GetSymbol().position.end;
      Skip();
      if cond.None? || body.None? {
        r := MissingHere();
        return;
      }
      r := Success(Some(While(Position(start, end), cond.value, body.value)));
    }

    method ParseFor() returns (r: Result<Option<Expr>>)
      requires Valid()
      modifies this
      ensures Valid()
      ensures old(pos) <= pos
      ensures Agrees(r, pos, ForAt(symbols, old(pos)))
      decreases |symbols| - pos, 11
    {
      var start := GetSymbol().position.start;
      Skip();
      if Check() != Identifier {
        r := ErrorHere();
        return;
      }
      var counter := Name(GetSymbol().position, GetSymbol().lexeme);
      Skip();
      if Check() != OpAssign {
        r := ErrorHere();
        return;
      }
      Skip();
      r := ParseForBounds(start, counter);
    }

    /** The bounds of a `for`: `expr ',' expr ','`, then its step and body. */
    method ParseForBounds(start: Location, counter: Expr) returns (r: Result<Option<Expr>>)
      requires Valid()
      modifies this
      ensures Valid()
      ensures old(pos) <= pos
      ensures Agrees(r, pos, ForBoundsAt(symbols, old(pos), start, counter))
      decreases |symbols| - pos, 11
    {
      var low :- ParseExpr();
      :- Expect(OpComma);
      var high :- ParseExpr();
      :- Expect(OpComma);
      r := ParseForStep(start, counter, low, high);
    }

    /** The step and body of a `for`: `expr ':' expr '}'`. */
    method ParseForStep(start: Location, counter: Expr, low: Option<Expr>, high: Option<Expr>)
      returns (r: Result<Option<Expr>>)
      requires Valid()
      modifies this
      ensures Valid()
      ensures old(pos) <= pos
      ensures Agrees(r, pos, ForStepAt(symbols, old(pos), start, counter, low, high))
      decreases |symbols| - pos, 11
    {
      var step :- ParseExpr();
      :- Expect(OpColon);
      var body :- ParseExpr();
      if Check() != OpRBrace {
        r := ErrorHere();
        return;
      }
      var end := GetSymbol().position.end;
      Skip();
      if low.None? || high.None? || step.None? || body.None? {
        r := MissingHere();
        return;
      }
      r := Success(Some(For(Position(start, end), counter, low.value, high.value, step.value, body.value)));
    }

    method ParseAssignment() returns (r: Result<Option<Expr>>)
      requires Valid()
      modifies this
      ensures Valid()
      ensures old(pos) <= pos
      ensures Agrees(r, pos, AssignmentAt(symbols, old(pos)))
      decreases |symbols| - pos, 11
    {
      var _ :- ParseExpr();
      :- Expect(OpAssign);
      var _ :- ParseExpr();
      :- Expect(OpRBrace);
      r := Success(None);
    }

    method ParseAtomExpr4() returns (r: Result<Expr>)
      requires Valid()
      modifies this
      ensures Valid()
      ensures old(pos) <= pos
      ensures Agrees(r, pos, IfElseAt(symbols, old(pos)))
      decreases |symbols| - pos, 1
    {
      var t := Check();
      if t == OpRBrace {
        var here := GetSymbol().position;
        Skip();
        r := Success(Block(here, []));
      } else if t == KwElse {
        Skip();
        var e :- ParseExpr();
        if Check() != OpRBrace {
          r := ErrorHere();
          return;
        }
        if e.None? {
          r := MissingHere();
          return;
        }
        var here := GetSymbol().position;
        Skip();
        r := Success(Block(here, [e.value]));
      } else {
        r := ErrorHere();
      }
    }

    method ParseExprs() returns (r: Result<Expr>)
      requires Valid()
      modifies this
      ensures Valid()
      ensures old(pos) <= pos
      ensures Agrees(r, pos, ExprsAt(symbols, old(pos)))
      decreases |symbols| - pos, 11
    {
      var e :- ParseExpr();
      if e.None? {
        r := MissingHere();
        return;
      }
      var tail :- ParseExprs2();
      r := Success(Block(Position(e.value.position.start, tail.position.end), [e.value] + tail.expressions));
    }

    method ParseExprs2() returns (r: Result<Expr>)
      requires Valid()
      modifies this
      ensures Valid()
      ensures old(pos) <= pos
      ensures Agrees(r, pos, ExprsTailAt(symbols, old(pos)))
      decreases |symbols| - pos, 1
    {
      var t := Check();
      if t == OpComma {
        Skip();
        var e :- ParseExpr();
        if e.None? {
          r := MissingHere();
          return;
        }
        var tail :- ParseExprs2();
        r := Success(Block(Position(e.value.position.start, tail.position.end), [e.value] + tail.expressions));
      } else if t == OpRParent {
        r := Success(Block(GetSymbol().position, []));
      } else {
        r := ErrorHere();
      }
    }
  }
}
