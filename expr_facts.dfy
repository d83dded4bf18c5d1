/**
 * Expressions: right-nested logical chains, the single non-associative comparison,
 * constants, conditionals, and calls with their comma-separated arguments.
 */
module ExprFacts {
  import opened Tokens
  import opened Ast
  import opened Outcomes
  import opened Grammar

  // ---------------------------------------------------------------- logical chains

  /**
   * `e0 op (e1 op (... op en))`: every node spans from the start of its left operand to the
   * end of the last operand, and a single operand stands for itself.
   */
  function RightNested(op: BinaryOp, es: seq<Expr>): (r: Expr)
    requires |es| > 0
    ensures r.position.end == es[|es| - 1].position.end
    ensures |es| > 1 ==> r.Binary? && r.left == es[0] && r.op == op && r.position.start == es[0].position.start
    decreases |es|
  {
    if |es| == 1 then es[0]
    else
      var rest := RightNested(op, es[1..]);
      Binary(Position(es[0].position.start, rest.position.end), es[0], op, rest)
  }

  /**
   * From `p` on the symbols are `a0 | a1 | ... | an`, each `ai` being the node the conjunction
   * production builds at its position, and `q`, a symbol that may follow a disjunction, ends them.
   */
  ghost predicate OrOperands(toks: seq<Symbol>, p: nat, es: seq<Expr>, q: nat)
    requires WellFormed(toks)
    decreases |es|
  {
    p < |toks| && |es| > 0 && AndAt(toks, p).Ok? && AndAt(toks, p).value == Some(es[0]) &&
    var p1 := AndAt(toks, p).next;
    if |es| == 1 then p1 == q && IorFollow(toks[q].tokenType)
    else toks[p1].tokenType == OpOr && OrOperands(toks, Next(toks, p1), es[1..], q)
  }

  /** The disjunction tail after a `|` nests the remaining operands to the right. */
  lemma {:induction false} OrTailChain(toks: seq<Symbol>, p: nat, es: seq<Expr>, q: nat)
    requires WellFormed(toks) && p < |toks| && toks[p].tokenType == OpOr
    requires OrOperands(toks, Next(toks, p), es, q)
    ensures IorTailAt(toks, p) == Ok(Some(RightNested(Or, es)), q)
    decreases |es|
  {
    var p1 := AndAt(toks, Next(toks, p)).next;
    if |es| > 1 {
      OrTailChain(toks, p1, es[1..], q);
    } else {
      assert IorTailAt(toks, p1) == Ok(None, q);
    }
  }

  /** `a | b | c` is `a | (b | c)`; a lone operand comes back unchanged, with no node added. */
  lemma OrChain(toks: seq<Symbol>, p: nat, es: seq<Expr>, q: nat)
    requires WellFormed(toks) && OrOperands(toks, p, es, q)
    ensures IorAt(toks, p) == Ok(Some(RightNested(Or, es)), q)
  {
    var p1 := AndAt(toks, p).next;
    if |es| > 1 {
      OrTailChain(toks, p1, es[1..], q);
    } else {
      assert IorTailAt(toks, p1) == Ok(None, q);
    }
  }

  /** The same shape for `&`, whose operands are comparisons and which `|` may follow. */
  ghost predicate AndOperands(toks: seq<Symbol>, p: nat, es: seq<Expr>, q: nat)
    requires WellFormed(toks)
    decreases |es|
  {
    p < |toks| && |es| > 0 && CompareAt(toks, p).Ok? && CompareAt(toks, p).value == Some(es[0]) &&
    var p1 := CompareAt(toks, p).next;
    if |es| == 1 then p1 == q && AndFollow(toks[q].tokenType)
    else toks[p1].tokenType == OpAnd && AndOperands(toks, Next(toks, p1), es[1..], q)
  }

  /** The conjunction tail after a `&` nests the remaining operands to the right. */
  lemma {:induction false} AndTailChain(toks: seq<Symbol>, p: nat, es: seq<Expr>, q: nat)
    requires WellFormed(toks) && p < |toks| && toks[p].tokenType == OpAnd
    requires AndOperands(toks, Next(toks, p), es, q)
    ensures AndTailAt(toks, p) == Ok(Some(RightNested(And, es)), q)
    decreases |es|
  {
    var p1 := CompareAt(toks, Next(toks, p)).next;
    if |es| > 1 {
      AndTailChain(toks, p1, es[1..], q);
    } else {
      assert AndTailAt(toks, p1) == Ok(None, q);
    }
  }

  /** `a & b & c` is `a & (b & c)`; a lone operand comes back unchanged, with no node added. */
  lemma AndChain(toks: seq<Symbol>, p: nat, es: seq<Expr>, q: nat)
    requires WellFormed(toks) && AndOperands(toks, p, es, q)
    ensures AndAt(toks, p) == Ok(Some(RightNested(And, es)), q)
  {
    var p1 := CompareAt(toks, p).next;
    if |es| > 1 {
      AndTailChain(toks, p1, es[1..], q);
    } else {
      assert AndTailAt(toks, p1) == Ok(None, q);
    }
  }

  // ---------------------------------------------------------------- comparison

  /** The six comparison symbols map one-to-one onto the six comparison operators. */
  lemma ComparisonOneToOne(t: TokenType, op: BinaryOp)
    requires IsComparison(t) && op in {Eq, Neq, Leq, Geq, Lt, Gt}
    ensures CompareOp(t) == op <==> ComparisonSymbol(op) == t
  {
  }

  /** `a op b` with one comparison symbol yields `Binary(a, op, b)` from the start of `a` to the end of `b`. */
  lemma Comparison(toks: seq<Symbol>, p: nat, a: Expr, p1: nat, b: Expr, q: nat)
    requires WellFormed(toks) && p < |toks|
    requires AddAt(toks, p) == Ok(Some(a), p1) && IsComparison(toks[p1].tokenType)
    requires AddAt(toks, Next(toks, p1)) == Ok(Some(b), q)
    ensures CompareAt(toks, p) ==
      Ok(Some(Binary(Position(a.position.start, b.position.end), a, CompareOp(toks[p1].tokenType), b)), q)
  {
  }

  /** Without a comparison symbol the additive operand is the whole comparison. */
  lemma NoComparison(toks: seq<Symbol>, p: nat, a: Option<Expr>, p1: nat)
    requires WellFormed(toks) && p < |toks|
    requires AddAt(toks, p) == Ok(a, p1) && CompareFollow(toks[p1].tokenType)
    ensures CompareAt(toks, p) == Ok(a, p1)
  {
    assert !IsComparison(toks[p1].tokenType);
    assert CompareTailAt(toks, p1) == Ok(None, p1);
  }

  /** A comparison symbol can neither continue nor end a conjunction. */
  lemma ComparisonStopsConjunction(toks: seq<Symbol>, q: nat)
    requires WellFormed(toks) && q < |toks| && IsComparison(toks[q].tokenType)
    ensures AndTailAt(toks, q) == Fail(SyntaxError(toks[q].position))
  {
  }

  /**
   * Comparison does not associate: a comparison symbol right after a comparison is a
   * syntax error at that symbol, as no conjunction may continue with it.
   */
  lemma SecondComparison(toks: seq<Symbol>, p: nat, e: Option<Expr>, q: nat)
    requires WellFormed(toks) && p < |toks|
    requires CompareAt(toks, p) == Ok(e, q) && IsComparison(toks[q].tokenType)
    ensures AndAt(toks, p) == Fail(SyntaxError(toks[q].position))
  {
    ComparisonStopsConjunction(toks, q);
  }

  /** Hence `a op b op' c` is never an expression: the whole expression aborts at `op'`. */
  lemma ChainedComparison(toks: seq<Symbol>, p: nat, e: Option<Expr>, q: nat)
    requires WellFormed(toks) && p < |toks|
    requires CompareAt(toks, p) == Ok(e, q) && IsComparison(toks[q].tokenType)
    ensures ExprAt(toks, p) == Fail(SyntaxError(toks[q].position))
  {
    SecondComparison(toks, p, e, q);
  }

  // ---------------------------------------------------------------- constants

  /** The three constant symbols map one-to-one onto the three kinds of literal. */
  lemma ConstantOneToOne(t: TokenType, k: AtomType)
    requires IsConstant(t)
    ensures ConstantKind(t) == k <==> ConstantSymbol(k) == t
  {
  }

  /**
   * A constant symbol is consumed alone and becomes a literal with its position, its
   * lexeme and the kind the symbol names.
   */
  lemma ConstantAtom(toks: seq<Symbol>, p: nat)
    requires WellFormed(toks) && p < |toks| && IsConstant(toks[p].tokenType)
    ensures var k := ConstantKind(toks[p].tokenType);
      ConstantSymbol(k) == toks[p].tokenType &&
      AtomAt(toks, p) == Ok(Some(Literal(toks[p].position, toks[p].lexeme, k)), p + 1)
  {
  }

  /** A constant followed by a symbol that ends an expression is that whole expression. */
  lemma ConstantExpr(toks: seq<Symbol>, p: nat)
    requires WellFormed(toks) && p + 1 < |toks| && IsConstant(toks[p].tokenType)
    requires ExprFollow(toks[p + 1].tokenType)
    ensures ExprAt(toks, p) ==
      Ok(Some(Literal(toks[p].position, toks[p].lexeme, ConstantKind(toks[p].tokenType))), p + 1)
  {
    var lit := Some(Literal(toks[p].position, toks[p].lexeme, ConstantKind(toks[p].tokenType)));
    ConstantTerm(toks, p);
    NoComparison(toks, p, lit, p + 1);
    assert AndTailAt(toks, p + 1) == Ok(None, p + 1);
    assert AndAt(toks, p) == Ok(lit, p + 1);
    assert IorTailAt(toks, p + 1) == Ok(None, p + 1);
    assert IorAt(toks, p) == Ok(lit, p + 1);
    assert ExprTailAt(toks, p + 1, lit) == Ok(None, p + 1);
  }

  /** The first half of `ConstantExpr`: the constant is a whole sum. */
  lemma ConstantTerm(toks: seq<Symbol>, p: nat)
    requires WellFormed(toks) && p + 1 < |toks| && IsConstant(toks[p].tokenType)
    requires ExprFollow(toks[p + 1].tokenType)
    ensures AddAt(toks, p) ==
      Ok(Some(Literal(toks[p].position, toks[p].lexeme, ConstantKind(toks[p].tokenType))), p + 1)
  {
    var lit := Some(Literal(toks[p].position, toks[p].lexeme, ConstantKind(toks[p].tokenType)));
    ConstantAtom(toks, p);
    assert PostTailAt(toks, p + 1) == Ok((), p + 1);
    assert PreAt(toks, p) == Ok(lit, p + 1);
    assert MulTailAt(toks, p + 1) == Ok(None, p + 1);
    assert MulAt(toks, p) == Ok(lit, p + 1);
    assert AddTailAt(toks, p + 1) == Ok(None, p + 1);
  }

  // ---------------------------------------------------------------- prefix operators

  /** The three prefix symbols map one-to-one onto the three prefix operators. */
  lemma PrefixOneToOne(t: TokenType, op: UnaryOp)
    requires IsPrefix(t)
    ensures PrefixOp(t) == op <==> PrefixSymbol(op) == t
  {
  }

  /**
   * `op e` applies the operator of its symbol to the prefix expression after it and spans from
   * the operator to the end of that operand; an operand that yields no node is a missing node.
   */
  lemma Prefix(toks: seq<Symbol>, p: nat, e: Option<Expr>, q: nat)
    requires WellFormed(toks) && p + 1 < |toks| && IsPrefix(toks[p].tokenType)
    requires PreAt(toks, p + 1) == Ok(e, q)
    ensures PreAt(toks, p) ==
      if e.Some? then
        Ok(Some(Unary(Position(toks[p].position.start, e.value.position.end), e.value, PrefixOp(toks[p].tokenType))), q)
      else Fail(MissingNode(toks[q].position))
  {
    assert Next(toks, p) == p + 1;
  }

  /** A lookahead that starts neither a prefix nor a postfix expression is a syntax error there. */
  lemma NoPrefixExpr(toks: seq<Symbol>, p: nat)
    requires WellFormed(toks) && p < |toks|
    requires !IsPrefix(toks[p].tokenType) && !PostStart(toks[p].tokenType)
    ensures PreAt(toks, p) == Fail(SyntaxError(toks[p].position))
  {
  }

  // ---------------------------------------------------------------- conditionals

  /** `{ if c then e }`: the missing else part is an empty block at the closing brace. */
  lemma IfWithoutElse(toks: seq<Symbol>, p: nat, c: Expr, p1: nat, e: Expr, p2: nat)
    requires WellFormed(toks) && p < |toks| && toks[p].tokenType == KwIf
    requires ExprAt(toks, Next(toks, p)) == Ok(Some(c), p1) && toks[p1].tokenType == KwThen
    requires ExprAt(toks, Next(toks, p1)) == Ok(Some(e), p2) && toks[p2].tokenType == OpRBrace
    ensures IfAt(toks, p) ==
      Ok(Some(IfThenElse(Position(toks[p].position.start, toks[p2].position.end), c, e, Block(toks[p2].position, []))), p2 + 1)
  {
  }

  /** `{ if c then e else f }`: the else part is a block holding `f` alone, at the closing brace. */
  lemma IfWithElse(toks: seq<Symbol>, p: nat, c: Expr, p1: nat, e: Expr, p2: nat, f: Expr, p3: nat)
    requires WellFormed(toks) && p < |toks| && toks[p].tokenType == KwIf
    requires ExprAt(toks, Next(toks, p)) == Ok(Some(c), p1) && toks[p1].tokenType == KwThen
    requires ExprAt(toks, Next(toks, p1)) == Ok(Some(e), p2) && toks[p2].tokenType == KwElse
    requires ExprAt(toks, Next(toks, p2)) == Ok(Some(f), p3) && toks[p3].tokenType == OpRBrace
    ensures IfAt(toks, p) ==
      Ok(Some(IfThenElse(Position(toks[p].position.start, toks[p3].position.end), c, e, Block(toks[p3].position, [f]))), p3 + 1)
  {
  }

  // ---------------------------------------------------------------- loops

  /**
   * `{ while c : e }` is a loop from `while` to the closing brace, which it consumes; a
   * condition or body that yields no node is a missing node.
   */
  lemma WhileLoop(toks: seq<Symbol>, p: nat, c: Option<Expr>, p1: nat, b: Option<Expr>, p2: nat)
    requires WellFormed(toks) && p + 1 < |toks| && toks[p].tokenType == KwWhile
    requires ExprAt(toks, p + 1) == Ok(c, p1) && p1 + 1 < |toks| && toks[p1].tokenType == OpColon
    requires ExprAt(toks, p1 + 1) == Ok(b, p2) && p2 + 1 < |toks| && toks[p2].tokenType == OpRBrace
    ensures AtomBraceAt(toks, p) ==
      if c.Some? && b.Some? then
        Ok(Some(While(Position(toks[p].position.start, toks[p2].position.end), c.value, b.value)), p2 + 1)
      else Fail(MissingNode(toks[p2 + 1].position))
  {
    assert Next(toks, p) == p + 1 && Next(toks, p1) == p1 + 1 && Next(toks, p2) == p2 + 1;
  }

  /** A loop condition not followed by `:`, or a body not followed by `}`, is an error at that symbol. */
  lemma WhileErrors(toks: seq<Symbol>, p: nat, c: Option<Expr>, p1: nat)
    requires WellFormed(toks) && p + 1 < |toks| && toks[p].tokenType == KwWhile
    requires ExprAt(toks, p + 1) == Ok(c, p1)
    ensures toks[p1].tokenType != OpColon ==> AtomBraceAt(toks, p) == Fail(SyntaxError(toks[p1].position))
    ensures (toks[p1].tokenType == OpColon && p1 + 1 < |toks| && ExprAt(toks, p1 + 1).Ok? &&
             toks[ExprAt(toks, p1 + 1).next].tokenType != OpRBrace) ==>
      AtomBraceAt(toks, p) == Fail(SyntaxError(toks[ExprAt(toks, p1 + 1).next].position))
  {
    assert Next(toks, p) == p + 1;
    if toks[p1].tokenType == OpColon {
      assert Next(toks, p1) == p1 + 1;
    }
  }

  /**
   * `{ for i = lo , hi , step : e }` is read in three steps, which together give the loop over
   * the counter `i` from `for` to the closing brace: `for i =` hands the counter on to the
   * bounds (this lemma), `lo , hi ,` hands both bounds on to the step and body (`ForBounds`),
   * and the step and body complete the node (`ForStep`).
   */
  lemma ForHeader(toks: seq<Symbol>, p: nat)
    requires WellFormed(toks) && p + 3 < |toks| && toks[p].tokenType == KwFor
    requires toks[p + 1].tokenType == Identifier && toks[p + 2].tokenType == OpAssign
    ensures AtomBraceAt(toks, p) ==
      ForBoundsAt(toks, p + 3, toks[p].position.start, Name(toks[p + 1].position, toks[p + 1].lexeme))
  {
    assert Next(toks, p) == p + 1 && Next(toks, p + 1) == p + 2 && Next(toks, p + 2) == p + 3;
  }

  /** `lo , hi ,` hands both bounds on to the step and body of the loop. */
  lemma ForBounds(toks: seq<Symbol>, p: nat, start: Location, counter: Expr,
                  lo: Option<Expr>, p3: nat, hi: Option<Expr>, p4: nat)
    requires WellFormed(toks) && p < |toks|
    requires ExprAt(toks, p) == Ok(lo, p3) && p3 + 1 < |toks| && toks[p3].tokenType == OpComma
    requires ExprAt(toks, p3 + 1) == Ok(hi, p4) && p4 + 1 < |toks| && toks[p4].tokenType == OpComma
    ensures ForBoundsAt(toks, p, start, counter) == ForStepAt(toks, p4 + 1, start, counter, lo, hi)
  {
    assert Next(toks, p3) == p3 + 1 && Next(toks, p4) == p4 + 1;
  }

  /** The step and body of a `for` complete the loop at the closing brace, which is consumed. */
  lemma ForStep(toks: seq<Symbol>, p: nat, start: Location, counter: Expr, lo: Option<Expr>, hi: Option<Expr>,
                step: Option<Expr>, p5: nat, b: Option<Expr>, p6: nat)
    requires WellFormed(toks) && p < |toks|
    requires ExprAt(toks, p) == Ok(step, p5) && p5 + 1 < |toks| && toks[p5].tokenType == OpColon
    requires ExprAt(toks, p5 + 1) == Ok(b, p6) && p6 + 1 < |toks| && toks[p6].tokenType == OpRBrace
    ensures ForStepAt(toks, p, start, counter, lo, hi) ==
      if lo.Some? && hi.Some? && step.Some? && b.Some? then
        Ok(Some(For(Position(start, toks[p6].position.end), counter, lo.value, hi.value, step.value, b.value)), p6 + 1)
      else Fail(MissingNode(toks[p6 + 1].position))
  {
    assert Next(toks, p5) == p5 + 1 && Next(toks, p6) == p6 + 1;
  }

  /** A `for` not followed by a counter name, or a counter not followed by `=`, is an error at that symbol. */
  lemma ForErrors(toks: seq<Symbol>, p: nat)
    requires WellFormed(toks) && p + 1 < |toks| && toks[p].tokenType == KwFor
    ensures toks[p + 1].tokenType != Identifier ==> AtomBraceAt(toks, p) == Fail(SyntaxError(toks[p + 1].position))
    ensures toks[p + 1].tokenType == Identifier && p + 2 < |toks| && toks[p + 2].tokenType != OpAssign ==>
      AtomBraceAt(toks, p) == Fail(SyntaxError(toks[p + 2].position))
  {
    assert Next(toks, p) == p + 1;
    if toks[p + 1].tokenType == Identifier {
      assert Next(toks, p + 1) == p + 2;
    }
  }

  // ---------------------------------------------------------------- argument lists and calls

  /**
   * From `p` to `q` the symbols are `, e0 , e1 ... , en`, each expression being what the
   * expression production parses at the symbol after its comma.
   */
  ghost predicate CommaExprs(toks: seq<Symbol>, p: nat, es: seq<Expr>, q: nat)
    requires WellFormed(toks)
    decreases |es|
  {
    if es == [] then p == q
    else
      p + 1 < |toks| && toks[p].tokenType == OpComma &&
      ExprAt(toks, p + 1).Ok? && ExprAt(toks, p + 1).value == Some(es[0]) &&
      CommaExprs(toks, ExprAt(toks, p + 1).next, es[1..], q)
  }

  /** The tail of an argument list parses the comma-separated expressions in order and stops on `)`. */
  lemma {:induction false} ExprsTailInOrder(toks: seq<Symbol>, p: nat)
    requires WellFormed(toks) && p < |toks| && ExprsTailAt(toks, p).Ok?
    ensures var r := ExprsTailAt(toks, p);
      toks[r.next].tokenType == OpRParent && CommaExprs(toks, p, r.value.expressions, r.next)
    decreases |toks| - p
  {
    if toks[p].tokenType == OpComma {
      var e := ExprAt(toks, p + 1);
      var rest := ExprsTailAt(toks, e.next);
      ExprsTailInOrder(toks, e.next);
      assert ([e.value.value] + rest.value.expressions)[1..] == rest.value.expressions;
    }
  }

  /** Conversely, comma-separated expressions before `)` are parsed in order, leaving `)` unread. */
  lemma {:induction false} ExprsTailFromSpans(toks: seq<Symbol>, p: nat, es: seq<Expr>, q: nat)
    requires WellFormed(toks) && p < |toks| && CommaExprs(toks, p, es, q)
    requires q < |toks| && toks[q].tokenType == OpRParent
    ensures var r := ExprsTailAt(toks, p);
      r.Ok? && r.value.Block? && r.value.expressions == es && r.next == q
    decreases |es|
  {
    if es != [] {
      ExprsTailFromSpans(toks, ExprAt(toks, p + 1).next, es[1..], q);
      assert [es[0]] + es[1..] == es;
    }
  }

  /** What an argument list is: a first expression, then comma-separated ones, then `)`. */
  ghost predicate ExprList(toks: seq<Symbol>, p: nat, es: seq<Expr>, q: nat)
    requires WellFormed(toks) && p < |toks|
  {
    var first := ExprAt(toks, p);
    first.Ok? && |es| > 0 && first.value == Some(es[0]) &&
    q < |toks| && toks[q].tokenType == OpRParent && CommaExprs(toks, first.next, es[1..], q)
  }

  /**
   * An argument list holds at least one expression, the first parsed at the cursor and the
   * others after commas, and stops on `)` without consuming it; and every such sequence of
   * symbols is parsed so.
   */
  lemma ExprsInOrder(toks: seq<Symbol>, p: nat, es: seq<Expr>, q: nat)
    requires WellFormed(toks) && p < |toks|
    ensures (ExprsAt(toks, p).Ok? && ExprsAt(toks, p).value.expressions == es && ExprsAt(toks, p).next == q)
      <==> ExprList(toks, p, es, q)
  {
    var first := ExprAt(toks, p);
    if ExprsAt(toks, p).Ok? && ExprsAt(toks, p).value.expressions == es && ExprsAt(toks, p).next == q {
      var rest := ExprsTailAt(toks, first.next);
      ExprsTailInOrder(toks, first.next);
      assert ([first.value.value] + rest.value.expressions)[1..] == rest.value.expressions;
    }
    if ExprList(toks, p, es, q) {
      ExprsTailFromSpans(toks, first.next, es[1..], q);
      assert [es[0]] + es[1..] == es;
    }
  }

  /** `f ( a0 , ... , an )` is a call of `f` on the arguments in order, up to and including `)`. */
  lemma CallExpr(toks: seq<Symbol>, p: nat, args: seq<Expr>, q: nat)
    requires WellFormed(toks) && p + 2 < |toks|
    requires toks[p].tokenType == Identifier && toks[p + 1].tokenType == OpLParent
    requires ExprList(toks, p + 2, args, q)
    ensures AtomAt(toks, p) ==
      Ok(Some(Call(Position(toks[p].position.start, toks[q].position.end), args, toks[p].lexeme)), q + 1)
  {
    var id := Name(toks[p].position, toks[p].lexeme);
    assert Next(toks, p) == p + 1 && Next(toks, p + 1) == p + 2 && Next(toks, q) == q + 1;
    ExprsInOrder(toks, p + 2, args, q);
    var exprs := ExprsAt(toks, p + 2);
    assert exprs.Ok? && exprs.value.expressions == args && exprs.next == q;
    assert AtomNameAt(toks, p + 1, id) ==
      Ok(Call(Position(toks[p].position.start, toks[q].position.end), args, toks[p].lexeme), q + 1);
  }

  /**
   * `( e0 , ... , en )` is the sequence expression: a block of the expressions in order, from
   * `(` to `)`, which is consumed.
   */
  lemma Parenthesized(toks: seq<Symbol>, p: nat, es: seq<Expr>, q: nat)
    requires WellFormed(toks) && p + 1 < |toks| && toks[p].tokenType == OpLParent
    requires ExprList(toks, p + 1, es, q)
    ensures AtomAt(toks, p) == Ok(Some(Block(Position(toks[p].position.start, toks[q].position.end), es)), q + 1)
  {
    assert Next(toks, p) == p + 1 && Next(toks, q) == q + 1;
    ExprsInOrder(toks, p + 1, es, q);
  }

  /** A lookahead that may follow a name leaves the name as it is. */
  lemma NameTail(toks: seq<Symbol>, p: nat, id: Expr)
    requires WellFormed(toks) && p < |toks| && id.Name? && NameFollow(toks[p].tokenType)
    ensures AtomNameAt(toks, p, id) == Ok(id, p)
  {
    assert toks[p].tokenType != OpLParent;
  }

  /** A name not followed by `(` is the name itself, and the lookahead is left unread. */
  lemma NameAtom(toks: seq<Symbol>, p: nat)
    requires WellFormed(toks) && p + 1 < |toks| && toks[p].tokenType == Identifier
    requires NameFollow(toks[p + 1].tokenType)
    ensures AtomAt(toks, p) == Ok(Some(Name(toks[p].position, toks[p].lexeme)), p + 1)
  {
    NameTail(toks, p + 1, Name(toks[p].position, toks[p].lexeme));
  }

  // ---------------------------------------------------------------- where

  /** The where clause `{ where defs }` after an expression `e`, up to the symbol after `}`. */
  lemma WhereTail(toks: seq<Symbol>, p1: nat, e: Expr, defs: Defs, p2: nat)
    requires WellFormed(toks) && p1 + 1 < |toks| && toks[p1].tokenType == OpLBrace
    requires toks[p1 + 1].tokenType == KwWhere
    requires DefsAt(toks, p1 + 2) == Ok(defs, p2) && toks[p2].tokenType == OpRBrace
    ensures ExprTailAt(toks, p1, Some(e)) ==
      Ok(Some(Where(Position(e.position.start, toks[p2 + 1].position.end), e, defs)), p2 + 1)
  {
    assert Next(toks, p1) == p1 + 1 && Next(toks, p1 + 1) == p1 + 2 && Next(toks, p2) == p2 + 1;
  }

  /** A where clause after the disjunction replaces it as the value of the expression. */
  lemma ExprWithTail(toks: seq<Symbol>, p: nat, ior: Option<Expr>, p1: nat, w: Expr, q: nat)
    requires WellFormed(toks) && p < |toks|
    requires IorAt(toks, p) == Ok(ior, p1) && p1 < |toks| && ExprTailAt(toks, p1, ior) == Ok(Some(w), q)
    ensures ExprAt(toks, p) == Ok(Some(w), q)
  {
  }

  /** Without a where clause, the expression is its disjunction, unchanged, and the lookahead is left unread. */
  lemma ExprWithoutTail(toks: seq<Symbol>, p: nat, ior: Option<Expr>, p1: nat)
    requires WellFormed(toks) && p < |toks|
    requires IorAt(toks, p) == Ok(ior, p1) && p1 < |toks| && ExprFollow(toks[p1].tokenType)
    ensures ExprTailAt(toks, p1, ior) == Ok(None, p1)
    ensures ExprAt(toks, p) == Ok(ior, p1)
  {
  }

  /**
   * `e { where defs }` attaches the definitions to `e`; the node ends where the symbol after
   * the closing brace ends, since the brace is skipped before the end is read.
   */
  lemma WhereExpr(toks: seq<Symbol>, p: nat, e: Expr, p1: nat, defs: Defs, p2: nat)
    requires WellFormed(toks) && p < |toks| && p1 + 2 < |toks|
    requires IorAt(toks, p) == Ok(Some(e), p1) && toks[p1].tokenType == OpLBrace
    requires toks[p1 + 1].tokenType == KwWhere
    requires DefsAt(toks, p1 + 2) == Ok(defs, p2) && p2 + 1 < |toks| && toks[p2].tokenType == OpRBrace
    ensures ExprAt(toks, p) ==
      Ok(Some(Where(Position(e.position.start, toks[p2 + 1].position.end), e, defs)), p2 + 1)
  {
    var w := Where(Position(e.position.start, toks[p2 + 1].position.end), e, defs);
    WhereTail(toks, p1, e, defs, p2);
    ExprWithTail(toks, p, Some(e), p1, w, p2 + 1);
  }
}
