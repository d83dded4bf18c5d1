/**
 * What the type production accepts and builds: one-symbol types, the error on any other
 * lookahead, arrays, and the round trip from a type through its symbols and back.
 */
module TypeFacts {
  import opened Tokens
  import opened Ast
  import opened Outcomes
  import opened Grammar
  import Numbers

  /** Lookaheads of a type that is a single symbol: a type name or an atomic type. */
  predicate IsSimpleType(t: TokenType) { t == Identifier || t == AtLogical || t == AtInteger || t == AtString }

  /** The keyword symbol naming an atomic type, and its spelling. */
  function AtomKeyword(k: AtomType): (t: TokenType)
    ensures IsSimpleType(t) && t != Identifier
  {
    match k
    case Log => AtLogical
    case Int => AtInteger
    case Str => AtString
  }

  function AtomSpelling(k: AtomType): string {
    match k
    case Log => "logical"
    case Int => "integer"
    case Str => "string"
  }

  /**
   * A type as the parser can have built it from symbols: an array node spans from its
   * `arr` keyword to the end of its element type, and its size is a 32-bit natural number.
   */
  predicate Printable(t: Type) {
    match t
    case Array(pos, size, elem) =>
      0 <= size <= Numbers.MaxInt && pos.end == elem.position.end && Printable(elem)
    case _ => true
  }

  /** The four symbols `arr [ n ]` that open an array type. */
  function ArrayPrefix(pos: Position, size: nat): (s: seq<Symbol>)
    ensures |s| == 4
  {
    [Symbol(KwArr, "arr", pos), Symbol(OpLBracket, "[", pos),
     Symbol(CInteger, Numbers.DecimalString(size), pos), Symbol(OpRBracket, "]", pos)]
  }

  /** The symbols that spell a type; every symbol carries the position of the node it starts. */
  function Render(t: Type): (s: seq<Symbol>)
    requires Printable(t)
    ensures |s| > 0
  {
    match t
    case TypeName(pos, id) => [Symbol(Identifier, id, pos)]
    case Atom(pos, k) => [Symbol(AtomKeyword(k), AtomSpelling(k), pos)]
    case Array(pos, size, elem) =>
      ArrayPrefix(pos, size) + Render(elem)
  }

  /** The kinds of the symbols a type consumes. */
  function Kinds(t: Type): (s: seq<TokenType>)
    ensures |s| > 0
  {
    match t
    case TypeName(_, _) => [Identifier]
    case Atom(_, k) => [AtomKeyword(k)]
    case Array(_, _, elem) => [KwArr, OpLBracket, CInteger, OpRBracket] + Kinds(elem)
  }

  /** A type name or an atomic type is the one symbol under the cursor, which is consumed. */
  lemma SingleSymbolType(toks: seq<Symbol>, p: nat)
    requires WellFormed(toks) && p < |toks| && IsSimpleType(toks[p].tokenType)
    ensures TypeAt(toks, p).Ok? && TypeAt(toks, p).next == p + 1
    ensures TypeAt(toks, p).value.position == toks[p].position
    ensures TypeAt(toks, p).value.TypeName? <==> toks[p].tokenType == Identifier
    ensures TypeAt(toks, p).value.TypeName? ==> TypeAt(toks, p).value.identifier == toks[p].lexeme
    ensures TypeAt(toks, p).value.Atom? ==> AtomKeyword(TypeAt(toks, p).value.kind) == toks[p].tokenType
  {
  }

  /** Any lookahead that starts no type is a syntax error at that symbol. */
  lemma NoType(toks: seq<Symbol>, p: nat)
    requires WellFormed(toks) && p < |toks|
    requires !IsSimpleType(toks[p].tokenType) && toks[p].tokenType != KwArr
    ensures TypeAt(toks, p) == Fail(SyntaxError(toks[p].position))
  {
  }

  /**
   * An array type: `arr [ n ] T` yields an array of the value of `n` whose elements have
   * type T, spanning from the `arr` keyword to the end of T, and stops where T stops.
   */
  lemma ArrayType(toks: seq<Symbol>, p: nat, size: int, elem: Type, q: nat)
    requires WellFormed(toks) && p + 4 < |toks|
    requires toks[p].tokenType == KwArr && toks[p + 1].tokenType == OpLBracket
    requires toks[p + 2].tokenType == CInteger && Numbers.ParseInt(toks[p + 2].lexeme) == Some(size)
    requires toks[p + 3].tokenType == OpRBracket
    requires TypeAt(toks, p + 4) == Ok(elem, q)
    ensures TypeAt(toks, p) == Ok(Array(Position(toks[p].position.start, elem.position.end), size, elem), q)
  {
  }

  /** Whatever the parsed type, it consumed exactly the symbols its kinds list. */
  lemma {:induction false} Consumes(toks: seq<Symbol>, p: nat)
    requires WellFormed(toks) && p < |toks| && TypeAt(toks, p).Ok?
    ensures var r := TypeAt(toks, p);
      r.next == p + |Kinds(r.value)| &&
      forall i :: 0 <= i < |Kinds(r.value)| ==> toks[p + i].tokenType == Kinds(r.value)[i]
    decreases |toks| - p, 1
  {
    if toks[p].tokenType == KwArr {
      ConsumesArray(toks, p);
    } else {
      SingleSymbolType(toks, p);
    }
  }

  /** The array case of `Consumes`: four symbols, then those of the element type. */
  lemma {:induction false} ConsumesArray(toks: seq<Symbol>, p: nat)
    requires WellFormed(toks) && p < |toks| && TypeAt(toks, p).Ok? && toks[p].tokenType == KwArr
    ensures var r := TypeAt(toks, p);
      r.next == p + |Kinds(r.value)| &&
      forall i :: 0 <= i < |Kinds(r.value)| ==> toks[p + i].tokenType == Kinds(r.value)[i]
    decreases |toks| - p, 0
  {
    var r := TypeAt(toks, p);
    Consumes(toks, p + 4);
    var elem := TypeAt(toks, p + 4).value;
    assert r.value == Array(r.value.position, r.value.size, elem);
    assert Kinds(r.value) == [KwArr, OpLBracket, CInteger, OpRBracket] + Kinds(elem);
  }

  /** `toks` holds the symbols `s` from index `p` on. */
  ghost predicate SpellsAt(toks: seq<Symbol>, p: nat, s: seq<Symbol>) {
    p + |s| <= |toks| && forall i :: 0 <= i < |s| ==> toks[p + i] == s[i]
  }

  /** Spelling a type out as symbols and parsing them gives back the same type. */
  lemma {:induction false} RoundTrip(t: Type, toks: seq<Symbol>, p: nat)
    requires Printable(t) && WellFormed(toks)
    requires p + |Render(t)| < |toks| && SpellsAt(toks, p, Render(t))
    ensures TypeAt(toks, p) == Ok(t, p + |Render(t)|)
    decreases t, 1
  {
    if t.Array? {
      RoundTripArray(t, toks, p);
    } else {
      assert toks[p] == Render(t)[0];
      if t.Atom? {
        SingleSymbolType(toks, p);
      }
    }
  }

  /** The round trip of an array type, given the round trip of its element type. */
  lemma {:induction false} RoundTripArray(t: Type, toks: seq<Symbol>, p: nat)
    requires t.Array? && Printable(t) && WellFormed(toks)
    requires p + |Render(t)| < |toks| && SpellsAt(toks, p, Render(t))
    ensures TypeAt(toks, p) == Ok(t, p + |Render(t)|)
    decreases t, 0
  {
    var elem := t.elementType;
    ArraySpelling(t, toks, p);
    RoundTrip(elem, toks, p + 4);
    Numbers.DecimalRoundTrip(t.size);
    ArrayType(toks, p, t.size, elem, p + 4 + |Render(elem)|);
  }

  /** The spelling of an array type: its four leading symbols, then the element type's. */
  lemma ArraySpelling(t: Type, toks: seq<Symbol>, p: nat)
    requires t.Array? && Printable(t) && SpellsAt(toks, p, Render(t))
    ensures |Render(t)| == 4 + |Render(t.elementType)| && SpellsAt(toks, p + 4, Render(t.elementType))
    ensures toks[p] == Symbol(KwArr, "arr", t.position) && toks[p + 1].tokenType == OpLBracket
    ensures toks[p + 2] == Symbol(CInteger, Numbers.DecimalString(t.size), t.position)
    ensures toks[p + 3].tokenType == OpRBracket
  {
    var s := Render(t);
    var e := Render(t.elementType);
    var a := ArrayPrefix(t.position, t.size);
    assert s == a + e;
    assert toks[p] == s[0] == a[0] && toks[p + 1] == s[1] == a[1];
    assert toks[p + 2] == s[2] == a[2] && toks[p + 3] == s[3] == a[3];
    forall i | 0 <= i < |e| ensures toks[p + 4 + i] == e[i] {
      assert toks[p + (4 + i)] == s[4 + i];
    }
  }
}
