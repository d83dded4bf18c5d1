/**
 * Parameter lists: the parameters come out in the order the source lists them, separated by
 * commas, and the list production consumes the closing parenthesis.
 */
module ParamsFacts {
  import opened Tokens
  import opened Ast
  import opened Outcomes
  import opened Grammar

  /**
   * From `p` to `q` the symbols are `, x0 : T0 , x1 : T1 ...`, each parameter being what the
   * parameter production parses at the symbol after its comma.
   */
  ghost predicate CommaParams(toks: seq<Symbol>, p: nat, ps: seq<Parameter>, q: nat)
    requires WellFormed(toks)
    decreases |ps|
  {
    if ps == [] then p == q
    else
      p + 1 < |toks| && toks[p].tokenType == OpComma &&
      ParamAt(toks, p + 1).Ok? && ParamAt(toks, p + 1).value == ps[0] &&
      CommaParams(toks, ParamAt(toks, p + 1).next, ps[1..], q)
  }

  /** The tail of a parameter list parses the comma-separated parameters in order and consumes `)`. */
  lemma {:induction false} ParamsTailInOrder(toks: seq<Symbol>, p: nat)
    requires WellFormed(toks) && p < |toks| && ParamsTailAt(toks, p).Ok?
    ensures var r := ParamsTailAt(toks, p);
      0 < r.next && toks[r.next - 1].tokenType == OpRParent &&
      CommaParams(toks, p, r.value, r.next - 1)
    decreases |toks| - p, 1
  {
    if toks[p].tokenType == OpComma {
      ParamsTailConsInOrder(toks, p);
    }
  }

  /** The step of `ParamsTailInOrder` on a comma. */
  lemma {:induction false} ParamsTailConsInOrder(toks: seq<Symbol>, p: nat)
    requires WellFormed(toks) && p < |toks| && ParamsTailAt(toks, p).Ok? && toks[p].tokenType == OpComma
    ensures var r := ParamsTailAt(toks, p);
      0 < r.next && toks[r.next - 1].tokenType == OpRParent &&
      CommaParams(toks, p, r.value, r.next - 1)
    decreases |toks| - p, 0
  {
    var param := ParamAt(toks, p + 1);
    var rest := ParamsTailAt(toks, param.next);
    ParamsTailInOrder(toks, param.next);
    var q := rest.next;
    assert 0 < q && toks[q - 1].tokenType == OpRParent;
    CommaParamsCons(toks, p, param.value, rest.value, q - 1);
    assert ParamsTailAt(toks, p) == Ok([param.value] + rest.value, q);
  }

  /** A comma and a parameter in front of comma-separated parameters. */
  lemma CommaParamsCons(toks: seq<Symbol>, p: nat, x: Parameter, ps: seq<Parameter>, q: nat)
    requires WellFormed(toks) && p + 1 < |toks| && toks[p].tokenType == OpComma
    requires ParamAt(toks, p + 1).Ok? && ParamAt(toks, p + 1).value == x
    requires CommaParams(toks, ParamAt(toks, p + 1).next, ps, q)
    ensures CommaParams(toks, p, [x] + ps, q)
  {
    assert ([x] + ps)[1..] == ps;
  }

  /** Conversely, comma-separated parameters followed by `)` are parsed in order, `)` included. */
  lemma {:induction false} ParamsTailFromSpans(toks: seq<Symbol>, p: nat, ps: seq<Parameter>, q: nat)
    requires WellFormed(toks) && p < |toks| && CommaParams(toks, p, ps, q)
    requires q < |toks| && toks[q].tokenType == OpRParent
    ensures ParamsTailAt(toks, p) == Ok(ps, q + 1)
    decreases |ps|, 1
  {
    if ps != [] {
      ParamsTailConsFromSpans(toks, p, ps, q);
    }
  }

  /** The step of `ParamsTailFromSpans` for a list that still holds a parameter. */
  lemma {:induction false} ParamsTailConsFromSpans(toks: seq<Symbol>, p: nat, ps: seq<Parameter>, q: nat)
    requires WellFormed(toks) && p < |toks| && CommaParams(toks, p, ps, q) && ps != []
    requires q < |toks| && toks[q].tokenType == OpRParent
    ensures ParamsTailAt(toks, p) == Ok(ps, q + 1)
    decreases |ps|, 0
  {
    var x := ParamAt(toks, p + 1);
    var p1 := x.next;
    assert toks[p].tokenType == OpComma && x.Ok? && x.value == ps[0] && CommaParams(toks, p1, ps[1..], q);
    ParamsTailFromSpans(toks, p1, ps[1..], q);
    assert [ps[0]] + ps[1..] == ps;
    assert Next(toks, p) == p + 1;
    assert ParamsTailAt(toks, p) == Ok([ps[0]] + ps[1..], q + 1);
  }

  /** What a parameter list is: a first parameter, then comma-separated ones, then `)`. */
  ghost predicate ParamList(toks: seq<Symbol>, p: nat, ps: seq<Parameter>, q: nat)
    requires WellFormed(toks) && p < |toks|
  {
    var first := ParamAt(toks, p);
    first.Ok? && |ps| > 0 && ps[0] == first.value &&
    0 < q <= |toks| && toks[q - 1].tokenType == OpRParent && CommaParams(toks, first.next, ps[1..], q - 1)
  }

  /**
   * A parameter list holds at least one parameter, the first one parsed at the cursor and the
   * others after commas, and stops after `)`; and every such sequence of symbols is parsed so.
   */
  lemma ParamsInOrder(toks: seq<Symbol>, p: nat, ps: seq<Parameter>, q: nat)
    requires WellFormed(toks) && p < |toks|
    ensures ParamsAt(toks, p) == Ok(ps, q) <==> ParamList(toks, p, ps, q)
  {
    if ParamsAt(toks, p) == Ok(ps, q) {
      ParamsSound(toks, p);
    }
    if ParamList(toks, p, ps, q) {
      ParamsComplete(toks, p, ps, q);
    }
  }

  lemma ParamsSound(toks: seq<Symbol>, p: nat)
    requires WellFormed(toks) && p < |toks| && ParamsAt(toks, p).Ok?
    ensures ParamList(toks, p, ParamsAt(toks, p).value, ParamsAt(toks, p).next)
  {
    var first := ParamAt(toks, p);
    var rest := ParamsTailAt(toks, first.next);
    assert ParamsAt(toks, p) == Ok([first.value] + rest.value, rest.next);
    ParamsTailInOrder(toks, first.next);
    assert ([first.value] + rest.value)[1..] == rest.value;
  }

  lemma ParamsComplete(toks: seq<Symbol>, p: nat, ps: seq<Parameter>, q: nat)
    requires WellFormed(toks) && p < |toks| && ParamList(toks, p, ps, q)
    ensures ParamsAt(toks, p) == Ok(ps, q)
  {
    var first := ParamAt(toks, p);
    ParamsTailFromSpans(toks, first.next, ps[1..], q - 1);
    assert [ps[0]] + ps[1..] == ps;
    assert ParamsAt(toks, p) == Ok([first.value] + ps[1..], q);
  }

  /** `x : T` is the parameter `x` of type `T`, spanning from the name to the end of the type. */
  lemma Param(toks: seq<Symbol>, p: nat, t: Type, q: nat)
    requires WellFormed(toks) && p + 2 < |toks|
    requires toks[p].tokenType == Identifier && toks[p + 1].tokenType == OpColon
    requires TypeAt(toks, p + 2) == Ok(t, q)
    ensures ParamAt(toks, p) == Ok(Parameter(Position(toks[p].position.start, t.position.end), toks[p].lexeme, t), q)
  {
    assert Next(toks, p) == p + 1 && Next(toks, p + 1) == p + 2;
  }

  /** A parameter that does not start with a name, or whose name is not followed by `:`, is an error there. */
  lemma ParamErrors(toks: seq<Symbol>, p: nat)
    requires WellFormed(toks) && p < |toks|
    ensures toks[p].tokenType != Identifier ==> ParamAt(toks, p) == Fail(SyntaxError(toks[p].position))
    ensures toks[p].tokenType == Identifier && p + 1 < |toks| && toks[p + 1].tokenType != OpColon ==>
      ParamAt(toks, p) == Fail(SyntaxError(toks[p + 1].position))
  {
    if toks[p].tokenType == Identifier {
      assert Next(toks, p) == p + 1;
    }
  }
}
