/**
 * Definition lists: the definitions come out in the order the source lists them, separated
 * by semicolons, and a list ends either before a closing brace, which its caller consumes,
 * or on the final EOF symbol.
 */
module DefsFacts {
  import opened Tokens
  import opened Ast
  import opened Outcomes
  import opened Grammar
  import opened ParamsFacts

  /**
   * From `p` to `q` the symbols are `; d0 ; d1 ... ; dn`, each definition being what the
   * definition production parses at the symbol after its semicolon.
   */
  ghost predicate SemicolonSpans(toks: seq<Symbol>, p: nat, ds: seq<Def>, q: nat)
    requires WellFormed(toks)
    decreases |ds|
  {
    if ds == [] then p == q
    else
      p + 1 < |toks| && toks[p].tokenType == OpSemicolon &&
      DefAt(toks, p + 1).Ok? && DefAt(toks, p + 1).value == ds[0] &&
      SemicolonSpans(toks, DefAt(toks, p + 1).next, ds[1..], q)
  }

  /** A symbol on which a definition list ends. */
  predicate EndsDefs(toks: seq<Symbol>, q: nat) {
    q < |toks| && (toks[q].tokenType == OpRBrace || (toks[q].tokenType == Eof && q == |toks| - 1))
  }

  /**
   * The tail of a definition list parses the semicolon-separated definitions in order and
   * stops on `}` or on the final EOF, where it ends; skipping that EOF leaves the cursor on it.
   */
  lemma {:induction false} DefsTailInOrder(toks: seq<Symbol>, p: nat)
    requires Lexed(toks) && p < |toks| && DefsTailAt(toks, p).Ok?
    ensures var r := DefsTailAt(toks, p);
      EndsDefs(toks, r.next) && r.value.position.end == toks[r.next].position.end &&
      SemicolonSpans(toks, p, r.value.definitions, r.next)
    decreases |toks| - p
  {
    if toks[p].tokenType == OpSemicolon {
      var p1 := DefAt(toks, p + 1).next;
      DefsTailInOrder(toks, p1);
      var r := DefsTailAt(toks, p);
      assert r.value.definitions[1..] == DefsTailAt(toks, p1).value.definitions;
    }
  }

  /** Conversely, semicolon-separated definitions before `}` or the final EOF are parsed in order. */
  lemma {:induction false} DefsTailFromSpans(toks: seq<Symbol>, p: nat, ds: seq<Def>, q: nat)
    requires Lexed(toks) && p < |toks| && SemicolonSpans(toks, p, ds, q) && EndsDefs(toks, q)
    ensures var r := DefsTailAt(toks, p);
      r.Ok? && r.value.definitions == ds && r.next == q && r.value.position.end == toks[q].position.end
    decreases |ds|, 1
  {
    if ds != [] {
      DefsTailConsFromSpans(toks, p, ds, q);
    }
  }

  /** The step of `DefsTailFromSpans` for a list that still holds a definition. */
  lemma {:induction false} DefsTailConsFromSpans(toks: seq<Symbol>, p: nat, ds: seq<Def>, q: nat)
    requires Lexed(toks) && p < |toks| && SemicolonSpans(toks, p, ds, q) && EndsDefs(toks, q) && ds != []
    ensures var r := DefsTailAt(toks, p);
      r.Ok? && r.value.definitions == ds && r.next == q && r.value.position.end == toks[q].position.end
    decreases |ds|, 0
  {
    var p1 := DefAt(toks, p + 1).next;
    DefsTailFromSpans(toks, p1, ds[1..], q);
    assert [ds[0]] + ds[1..] == ds;
  }

  /**
   * A definition list holds at least one definition, starts where the first one starts and
   * ends one column before the end of the symbol it stops on.
   */
  lemma DefsInOrder(toks: seq<Symbol>, p: nat)
    requires Lexed(toks) && p < |toks| && DefsAt(toks, p).Ok?
    ensures var r := DefsAt(toks, p);
      var first := DefAt(toks, p);
      first.Ok? && |r.value.definitions| > 0 && r.value.definitions[0] == first.value &&
      r.value.position == Position(first.value.position.start, ColumnBefore(toks[r.next].position.end)) &&
      EndsDefs(toks, r.next) && SemicolonSpans(toks, first.next, r.value.definitions[1..], r.next)
  {
    var first := DefAt(toks, p);
    DefsTailInOrder(toks, first.next);
    assert DefsAt(toks, p).value.definitions[1..] == DefsTailAt(toks, first.next).value.definitions;
  }

  /** Any lookahead after a definition other than `;`, `}` and EOF is a syntax error there. */
  lemma DefsTailError(toks: seq<Symbol>, p: nat)
    requires WellFormed(toks) && p < |toks|
    requires toks[p].tokenType != OpSemicolon && toks[p].tokenType != OpRBrace && toks[p].tokenType != Eof
    ensures DefsTailAt(toks, p) == Fail(SyntaxError(toks[p].position))
  {
  }

  /**
   * Conversely to `DefsInOrder`, a definition followed by semicolon-separated definitions that
   * end on `}` or the final EOF is parsed as the list of all of them, in order.
   */
  lemma DefsComplete(toks: seq<Symbol>, p: nat, d: Def, p1: nat, ds: seq<Def>, q: nat)
    requires Lexed(toks) && p < |toks| && DefAt(toks, p) == Ok(d, p1)
    requires SemicolonSpans(toks, p1, ds, q) && EndsDefs(toks, q)
    ensures DefsAt(toks, p) == Ok(Defs(Position(d.position.start, ColumnBefore(toks[q].position.end)), [d] + ds), q)
  {
    DefsTailFromSpans(toks, p1, ds, q);
  }

  // ---------------------------------------------------------------- single definitions

  /** A definition starts with `typ`, `fun` or `var`; any other lookahead is a syntax error there. */
  lemma NoDefinition(toks: seq<Symbol>, p: nat)
    requires WellFormed(toks) && p < |toks|
    requires toks[p].tokenType != KwTyp && toks[p].tokenType != KwFun && toks[p].tokenType != KwVar
    ensures DefAt(toks, p) == Fail(SyntaxError(toks[p].position))
  {
  }

  /** `typ x : T` defines the type name `x` as `T`, spanning from `typ` to the end of `T`. */
  lemma TypeDefinition(toks: seq<Symbol>, p: nat, t: Type, q: nat)
    requires WellFormed(toks) && p + 3 < |toks| && toks[p].tokenType == KwTyp
    requires toks[p + 1].tokenType == Identifier && toks[p + 2].tokenType == OpColon
    requires TypeAt(toks, p + 3) == Ok(t, q)
    ensures DefAt(toks, p) == Ok(TypeDef(Position(toks[p].position.start, t.position.end), toks[p + 1].lexeme, t), q)
  {
    assert Next(toks, p) == p + 1 && Next(toks, p + 1) == p + 2 && Next(toks, p + 2) == p + 3;
  }

  /** `var x : T` declares the variable `x` of type `T`, spanning from `var` to the end of `T`. */
  lemma VarDefinition(toks: seq<Symbol>, p: nat, t: Type, q: nat)
    requires WellFormed(toks) && p + 3 < |toks| && toks[p].tokenType == KwVar
    requires toks[p + 1].tokenType == Identifier && toks[p + 2].tokenType == OpColon
    requires TypeAt(toks, p + 3) == Ok(t, q)
    ensures DefAt(toks, p) == Ok(VarDef(Position(toks[p].position.start, t.position.end), toks[p + 1].lexeme, t), q)
  {
    assert Next(toks, p) == p + 1 && Next(toks, p + 1) == p + 2 && Next(toks, p + 2) == p + 3;
  }

  /**
   * After `typ`, `fun` or `var`, a lookahead that is not a name, or a name not followed by the
   * next symbol of the definition (`:` or `(`), is a syntax error at that symbol.
   */
  lemma DefinitionHeaderErrors(toks: seq<Symbol>, p: nat)
    requires WellFormed(toks) && p + 1 < |toks|
    requires toks[p].tokenType == KwTyp || toks[p].tokenType == KwFun || toks[p].tokenType == KwVar
    ensures toks[p + 1].tokenType != Identifier ==> DefAt(toks, p) == Fail(SyntaxError(toks[p + 1].position))
    ensures (toks[p + 1].tokenType == Identifier && p + 2 < |toks| &&
             toks[p + 2].tokenType != (if toks[p].tokenType == KwFun then OpLParent else OpColon)) ==>
      DefAt(toks, p) == Fail(SyntaxError(toks[p + 2].position))
  {
    assert Next(toks, p) == p + 1;
    if toks[p + 1].tokenType == Identifier {
      assert Next(toks, p + 1) == p + 2;
    }
  }

  /**
   * `fun f ( params ) : T = e` defines the function `f` with the parameters the list production
   * returns (in source order, by `ParamsInOrder`), result type `T` and body `e`, spanning from
   * `fun` to the end of `e`; a body that yields no node is a missing node.
   */
  lemma FunctionDefinition(toks: seq<Symbol>, p: nat, ps: seq<Parameter>, p3: nat, t: Type, p4: nat,
                           body: Option<Expr>, q: nat)
    requires WellFormed(toks) && p + 3 < |toks| && toks[p].tokenType == KwFun
    requires toks[p + 1].tokenType == Identifier && toks[p + 2].tokenType == OpLParent
    requires ParamsAt(toks, p + 3) == Ok(ps, p3) && p3 + 1 < |toks| && toks[p3].tokenType == OpColon
    requires TypeAt(toks, p3 + 1) == Ok(t, p4) && p4 + 1 < |toks| && toks[p4].tokenType == OpAssign
    requires ExprAt(toks, p4 + 1) == Ok(body, q)
    ensures DefAt(toks, p) ==
      if body.Some? then
        Ok(FunDef(Position(toks[p].position.start, body.value.position.end), toks[p + 1].lexeme, ps, t, body.value), q)
      else Fail(MissingNode(toks[q].position))
  {
    FunctionParts(toks, p, ps, p3);
    FunctionBody(toks, p3, toks[p].position.start, toks[p + 1].lexeme, ps, t, p4, body, q);
  }

  /** The function definition up to its parameters hands them on to the rest of the definition. */
  lemma FunctionParts(toks: seq<Symbol>, p: nat, ps: seq<Parameter>, p3: nat)
    requires WellFormed(toks) && p + 3 < |toks| && toks[p].tokenType == KwFun
    requires toks[p + 1].tokenType == Identifier && toks[p + 2].tokenType == OpLParent
    requires ParamsAt(toks, p + 3) == Ok(ps, p3)
    ensures DefAt(toks, p) == FunBodyAt(toks, p3, toks[p].position.start, toks[p + 1].lexeme, ps)
  {
    var p1 := Next(toks, p);
    var p2 := Next(toks, p1);
    assert p1 == p + 1 && p2 == p + 2 && Next(toks, p2) == p + 3;
    assert ParamsAt(toks, Next(toks, p2)) == Ok(ps, p3);
  }

  /** `: T = e` after the parameters completes the definition, spanning to the end of `e`. */
  lemma FunctionBody(toks: seq<Symbol>, p3: nat, start: Location, name: string, ps: seq<Parameter>,
                     t: Type, p4: nat, body: Option<Expr>, q: nat)
    requires WellFormed(toks) && p3 + 1 < |toks| && toks[p3].tokenType == OpColon
    requires TypeAt(toks, p3 + 1) == Ok(t, p4) && p4 + 1 < |toks| && toks[p4].tokenType == OpAssign
    requires ExprAt(toks, p4 + 1) == Ok(body, q)
    ensures FunBodyAt(toks, p3, start, name, ps) ==
      if body.Some? then Ok(FunDef(Position(start, body.value.position.end), name, ps, t, body.value), q)
      else Fail(MissingNode(toks[q].position))
  {
    assert Next(toks, p3) == p3 + 1 && Next(toks, p4) == p4 + 1;
  }
}
