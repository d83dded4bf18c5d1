# PINS syntax analysis, modelled in Dafny

This project models the syntax analyser of the PINS compiler. That analyser is the hand-written
LL(1) recursive-descent parser in `src/compiler/parser/Parser.java`.

The parser receives the lexer's output: a list of symbols. Each symbol has a token type, a lexeme
and a start/end line and column. The parser's only state is a cursor, `pozicijaSimbola`, into
that list. The cursor moves forward through `skip()`, which never passes the last symbol. Each
nonterminal has its own method. A method looks at the symbol under the cursor (`check()`),
consumes symbols, and either builds a syntax-tree node (`Defs`, `TypeDef`, `FunDef`, `VarDef`,
`Parameter`, `Atom`, `TypeName`, `Array`, `Binary`, `Unary`, `Literal`, `Name`, `Call`, `Block`,
`IfThenElse`, `While`, `For`, `Where`) or reports a syntax error.

The model has two layers. Each parsing method is stated against its production function.

- **`Parsing.Parser`** is the parser as the source writes it. It is a class with the immutable
  symbol list and a mutable `pos: nat` cursor.
  - `getSymbol` and `check` only read the state. They are functions with `reads this`.
  - Every other Java method is a method with `modifies this`.
  - `Skip` and `Expect` are specified through the cursor step `Tokens.Next`.

  `Expect` has no Java counterpart. It stands for the check, then skip or report, that the
  source repeats inline. Some long Java methods are cut into several methods, each continuing
  where the last one stops:
  - `ParseParenthesized` and `ParseBraced` are the `(` and `{` cases of `atom_expr`;
  - `ParseIf`, `ParseWhile`, `ParseFor` and `ParseAssignment` are the branches of `atom_expr3`;
  - `ParseForBounds` and `ParseForStep` continue `ParseFor`.

  Every parsing method (all methods but `Skip` and `Expect`) ensures that:
  - the cursor never moves back and stays inside the list;
  - it agrees with its production function in module `Grammar` (`ParseDefs` with `DefsAt`,
    `ParseParenthesized` and `ParseBraced` with `AtomAt`, and so on), applied to
    the cursor it started at (`Agrees`). When the function succeeds, the method returns the same
    node and leaves the cursor where the function does. When the function aborts, the method
    aborts with the same reason; the final cursor is then not constrained.
- **`Grammar`** holds a function for each parsing method, over the symbol list and a cursor. Each
  function has the same branches and the same lookahead sets as its method. It builds the same
  node, except for the else part of `atom_expr4` (see `Grammar.IfElseAt` under "Left out").
  Its result is an `Outcome`: a node with the new cursor, or an abort. Some long methods are
  cut into several functions:
  - `atom_expr3`, by branch, into `AtomBraceAt` (the dispatch), `IfAt`, `WhileAt`, `ForAt` and
    `AssignmentAt`;
  - `fun_def` into `FunDefAt` (up to the parameters) and `FunBodyAt` (the rest);
  - the `for` branch into `ForAt`, `ForBoundsAt` and `ForStepAt`.

  The last two cuts fall where the method goes on with the next symbol.
- **`TypeFacts`, `DefsFacts`, `ParamsFacts` and `ExprFacts`** prove what the productions
  promise about those functions:
  - which symbols each production consumes and which node it builds;
  - the order of list elements;
  - right nesting of `|` and `&`;
  - that comparison does not associate;
  - the `if` else-part;
  - calls and their arguments;
  - a round trip from a type, spelled out as symbols, back through `parseType`.

The model treats errors and null results as follows:

- **`Report.error`.** Its behaviour is not part of this model. Every call of it is modelled as
  an abort, `SyntaxError`, carrying the position of the symbol under the cursor.
- **`Integer.parseInt`.** It is modelled in module `Numbers` as the conversion of an optional
  sign and decimal digits to a 32-bit `int`. A lexeme it rejects is the abort `MalformedNumber`.
- **Null expressions.** The assignment branch of `parseAtomExpr3` returns `null`, so an
  expression production may yield nothing. The model tracks this as `Option<Expr>`.
- **Dereferencing null.** When the source dereferences a null node, or passes one to an AST
  constructor, the model aborts with `MissingNode`. The AST classes are not part of this model;
  their constructors are taken to reject null arguments.

## Model

| member | source | states |
|---|---|---|
| Tokens.Next | src/compiler/parser/Parser.java:55-58 | `skip` moves the cursor by exactly one, except on the last symbol, where it stays. The cursor stays in the list and never decreases. A symbol other than EOF in a lexed list always advances it. |
| Tokens.SkipAdvances | src/compiler/parser/Parser.java:55-58 | Skipping a symbol that is not EOF moves the cursor to the next index. |
| Numbers.ParseInt | src/compiler/parser/Parser.java:205 | The array size taken from an integer constant lies in the 32-bit range. Only a lexeme that starts with a digit or a sign can convert. |
| Numbers.DecimalRoundTrip | src/compiler/parser/Parser.java:205 | Every natural number up to 2^31-1, written in decimal, converts back to itself. |
| Grammar.DefsAt | src/compiler/parser/Parser.java:74-89 | `defs`: on success the cursor has not moved back and stays in the list. |
| Grammar.DefAt | src/compiler/parser/Parser.java:91-106 | `def`: the same cursor bound. |
| Grammar.DefsTailAt | src/compiler/parser/Parser.java:108-142 | `defs2`: the same cursor bound. |
| Grammar.TypeDefAt | src/compiler/parser/Parser.java:144-166 | `type_def`: the same cursor bound. `DefsFacts.TypeDefinition` states the node it builds. |
| Grammar.VarDefAt | src/compiler/parser/Parser.java:1034-1057 | `var_def`: the same cursor bound. `DefsFacts.VarDefinition` states the node it builds. |
| Grammar.FunDefAt | src/compiler/parser/Parser.java:226-247 | `fun_def` up to its parameters: the same cursor bound. `DefsFacts.FunctionDefinition` states the node. |
| Grammar.FunBodyAt | src/compiler/parser/Parser.java:248-265 | The rest of `fun_def`, from `:` on: the same cursor bound. |
| Grammar.ParamsAt | src/compiler/parser/Parser.java:267-278 | `params`: the same cursor bound. |
| Grammar.ParamAt | src/compiler/parser/Parser.java:280-301 | `param`: the same cursor bound. `ParamsFacts.Param` states the node it builds. |
| Grammar.ParamsTailAt | src/compiler/parser/Parser.java:303-322 | `params2`: the same cursor bound. |
| Grammar.TypeAt | src/compiler/parser/Parser.java:168-224 | `type`: the same cursor bound. |
| Grammar.ExprAt | src/compiler/parser/Parser.java:324-333 | `expr`: the same cursor bound. |
| Grammar.ExprTailAt | src/compiler/parser/Parser.java:335-373 | `expr2`: the same cursor bound. |
| Grammar.IorAt | src/compiler/parser/Parser.java:375-384 | `logical_ior_expr`: the same cursor bound. It stops only on a symbol that may follow a disjunction. |
| Grammar.IorTailAt | src/compiler/parser/Parser.java:386-416 | `logical_ior_expr2`: the same cursor bound and stop set. |
| Grammar.AndAt | src/compiler/parser/Parser.java:418-427 | `logical_and_expr`: the same cursor bound. It stops only on a symbol that may follow a conjunction. |
| Grammar.AndTailAt | src/compiler/parser/Parser.java:429-461 | `logical_and_expr2`: the same cursor bound and stop set. |
| Grammar.CompareAt | src/compiler/parser/Parser.java:463-472 | `compare_expr`: the same cursor bound. It stops only on a symbol that may follow an additive expression. |
| Grammar.CompareTailAt | src/compiler/parser/Parser.java:474-519 | `compare_expr2`: the same cursor bound and stop set. The node it hands back is always a `Binary`. Its operator is the one the comparison symbol under the cursor stands for. |
| Grammar.AddAt | src/compiler/parser/Parser.java:521-530 | `add_expr`: the same cursor bound and stop set. |
| Grammar.AddTailAt | src/compiler/parser/Parser.java:532-576 | `add_expr2`: the same cursor bound and stop set. The node it hands back is always a `Binary`. |
| Grammar.MulAt | src/compiler/parser/Parser.java:578-587 | `mul_expr`: the same cursor bound. It stops only on a symbol that may follow a multiplicative expression. |
| Grammar.MulTailAt | src/compiler/parser/Parser.java:589-637 | `mul_expr2`: the same cursor bound and stop set. The node it hands back is always a `Binary`. |
| Grammar.PreAt | src/compiler/parser/Parser.java:639-668 | `pre_expr`: the same cursor bound. It stops only on a symbol that may follow a postfix expression. `ExprFacts.Prefix` states the node it builds. |
| Grammar.PostAt | src/compiler/parser/Parser.java:670-680 | `post_expr`: the same cursor bound and stop set. |
| Grammar.PostTailAt | src/compiler/parser/Parser.java:682-727 | `post_expr2`: the same cursor bound and stop set. |
| Grammar.AtomAt | src/compiler/parser/Parser.java:729-787 | `atom_expr`: the same cursor bound. |
| Grammar.AtomNameAt | src/compiler/parser/Parser.java:789-836 | `atom_expr2`: the same cursor bound. |
| Grammar.AtomBraceAt | src/compiler/parser/Parser.java:838-842 | `atom_expr3`: the same cursor bound. |
| Grammar.IfAt | src/compiler/parser/Parser.java:843-861 | The `if` branch of `atom_expr3`: the same cursor bound. |
| Grammar.WhileAt | src/compiler/parser/Parser.java:863-883 | The `while` branch of `atom_expr3`: the same cursor bound. `ExprFacts.WhileLoop` states the node it builds. |
| Grammar.ForAt | src/compiler/parser/Parser.java:884-901 | The `for` branch of `atom_expr3` up to `=`: the same cursor bound. `ExprFacts.ForHeader`, `ForBounds` and `ForStep` state the node. |
| Grammar.ForBoundsAt | src/compiler/parser/Parser.java:902-914 | The bounds of a `for` and their commas: the same cursor bound. |
| Grammar.ForStepAt | src/compiler/parser/Parser.java:916-932 | The step and body of a `for`, up to `}`: the same cursor bound. |
| Grammar.AssignmentAt | src/compiler/parser/Parser.java:934-958 | The assignment branch of `atom_expr3`: the same cursor bound. |
| Grammar.IfElseAt | src/compiler/parser/Parser.java:965-992 | `atom_expr4`: the same cursor bound. |
| Grammar.ExprsAt | src/compiler/parser/Parser.java:994-1006 | `exprs`: the same cursor bound. The result is always a `Block`. |
| Grammar.ExprsTailAt | src/compiler/parser/Parser.java:1008-1031 | `exprs2`: the same cursor bound. The result is always a `Block`. |
| Grammar.CompareOp | src/compiler/parser/Parser.java:485-492 | Each comparison symbol stands for one of `EQ NEQ LEQ GEQ LT GT`, and `ComparisonSymbol` maps that operator back to the symbol. |
| Grammar.ComparisonSymbol | src/compiler/parser/Parser.java:485-492 | The inverse of `CompareOp`: the symbol of each comparison operator is a comparison symbol. |
| Grammar.AddOp | src/compiler/parser/Parser.java:538-541 | `+` and `-` stand for `ADD` and `SUB`, and `AddSymbol` maps that operator back to the symbol. |
| Grammar.AddSymbol | src/compiler/parser/Parser.java:538-541 | The inverse of `AddOp`: the symbol of `ADD` or `SUB` is an additive symbol. |
| Grammar.MulOp | src/compiler/parser/Parser.java:596-600 | `*`, `/` and `%` stand for `MUL`, `DIV` and `MOD`, and `MulSymbol` maps that operator back to the symbol. |
| Grammar.MulSymbol | src/compiler/parser/Parser.java:596-600 | The inverse of `MulOp`: the symbol of `MUL`, `DIV` or `MOD` is a multiplicative symbol. |
| Grammar.PrefixOp | src/compiler/parser/Parser.java:647-651 | `+`, `-` and `!` stand for the unary `ADD`, `SUB` and `NOT`, and `PrefixSymbol` maps that operator back to the symbol. |
| Grammar.PrefixSymbol | src/compiler/parser/Parser.java:647-651 | The inverse of `PrefixOp`: the symbol of each unary operator is a prefix symbol. |
| Grammar.ConstantKind | src/compiler/parser/Parser.java:736-756 | `C_LOGICAL`, `C_INTEGER` and `C_STRING` give the literal kinds `LOG`, `INT` and `STR`, and `ConstantSymbol` maps the kind back to the symbol. |
| Grammar.ConstantSymbol | src/compiler/parser/Parser.java:736-756 | The inverse of `ConstantKind`: the symbol of each literal kind is a constant symbol. |
| Grammar.ColumnBefore | src/compiler/parser/Parser.java:87 | The end of a definition list is one column to the left of its terminator's end, on the same line. |
| Parsing.Parser.constructor | src/compiler/parser/Parser.java:41-45 | The parser holds the given symbols, with its cursor on the first symbol. |
| Parsing.Parser.GetSymbol | src/compiler/parser/Parser.java:51-53 | The symbol under the cursor is one of the list's symbols. It is EOF when the cursor stands last, and skipping any other symbol advances the cursor by one. |
| Parsing.Parser.Check | src/compiler/parser/Parser.java:47-49 | The kind of that symbol, with the same two facts: EOF on the last symbol, and a non-EOF kind means `skip` advances. |
| Parsing.Parser.Skip | src/compiler/parser/Parser.java:51-58 | The cursor moves as `Next` says. It stays valid and never moves back. |
| Parsing.Parser.Expect | src/compiler/parser/Parser.java:159-162 | The expected symbol is skipped. Any other symbol aborts at its own position and leaves the cursor where it is. |
| Parsing.Parser.Parse | src/compiler/parser/Parser.java:63-66 | The result and final cursor are those of the `defs` production from the starting cursor. The cursor never moves back. |
| Parsing.Parser.ParseSource | src/compiler/parser/Parser.java:68-72 | The same as `Parse`. |
| Parsing.Parser.ParseDefs | src/compiler/parser/Parser.java:74-89 | It agrees with `Grammar.DefsAt` (node, cursor and abort), and the cursor never moves back. |
| Parsing.Parser.ParseDef | src/compiler/parser/Parser.java:91-106 | It agrees with `Grammar.DefAt`, and the cursor never moves back. |
| Parsing.Parser.ParseDefs2 | src/compiler/parser/Parser.java:108-142 | It agrees with `Grammar.DefsTailAt`, and the cursor never moves back. |
| Parsing.Parser.ParseTypeDef | src/compiler/parser/Parser.java:144-166 | It agrees with `Grammar.TypeDefAt`, and the cursor never moves back. |
| Parsing.Parser.ParseVarDef | src/compiler/parser/Parser.java:1034-1057 | It agrees with `Grammar.VarDefAt`, and the cursor never moves back. |
| Parsing.Parser.ParseFunDef | src/compiler/parser/Parser.java:226-265 | It agrees with `Grammar.FunDefAt`, and the cursor never moves back. |
| Parsing.Parser.ParseParams | src/compiler/parser/Parser.java:267-278 | It agrees with `Grammar.ParamsAt`, and the cursor never moves back. |
| Parsing.Parser.ParseParam | src/compiler/parser/Parser.java:280-301 | It agrees with `Grammar.ParamAt`, and the cursor never moves back. |
| Parsing.Parser.ParseParams2 | src/compiler/parser/Parser.java:303-322 | It agrees with `Grammar.ParamsTailAt`, and the cursor never moves back. |
| Parsing.Parser.ParseType | src/compiler/parser/Parser.java:168-224 | It agrees with `Grammar.TypeAt`, and the cursor never moves back. |
| Parsing.Parser.ParseExpr | src/compiler/parser/Parser.java:324-333 | It agrees with `Grammar.ExprAt`, and the cursor never moves back. |
| Parsing.Parser.ParseExpr2 | src/compiler/parser/Parser.java:335-373 | It agrees with `Grammar.ExprTailAt`, and the cursor never moves back. |
| Parsing.Parser.ParseLogicalIorExpr | src/compiler/parser/Parser.java:375-384 | It agrees with `Grammar.IorAt`, and the cursor never moves back. |
| Parsing.Parser.ParseLogicalIorExpr2 | src/compiler/parser/Parser.java:386-416 | It agrees with `Grammar.IorTailAt`, and the cursor never moves back. |
| Parsing.Parser.ParseLogicalAndExpr | src/compiler/parser/Parser.java:418-427 | It agrees with `Grammar.AndAt`, and the cursor never moves back. |
| Parsing.Parser.ParseLogicalAndExpr2 | src/compiler/parser/Parser.java:429-461 | It agrees with `Grammar.AndTailAt`, and the cursor never moves back. |
| Parsing.Parser.ParseCompareExpr | src/compiler/parser/Parser.java:463-472 | It agrees with `Grammar.CompareAt`, and the cursor never moves back. |
| Parsing.Parser.ParseCompareExpr2 | src/compiler/parser/Parser.java:474-519 | It agrees with `Grammar.CompareTailAt`, and the cursor never moves back. |
| Parsing.Parser.ParseAddExpr | src/compiler/parser/Parser.java:521-530 | It agrees with `Grammar.AddAt`, and the cursor never moves back. |
| Parsing.Parser.ParseAddExpr2 | src/compiler/parser/Parser.java:532-576 | It agrees with `Grammar.AddTailAt`, and the cursor never moves back. |
| Parsing.Parser.ParseMulExpr | src/compiler/parser/Parser.java:578-587 | It agrees with `Grammar.MulAt`, and the cursor never moves back. |
| Parsing.Parser.ParseMulExpr2 | src/compiler/parser/Parser.java:589-637 | It agrees with `Grammar.MulTailAt`, and the cursor never moves back. |
| Parsing.Parser.ParsePreExpr | src/compiler/parser/Parser.java:639-668 | It agrees with `Grammar.PreAt`, and the cursor never moves back. |
| Parsing.Parser.ParsePostExpr | src/compiler/parser/Parser.java:670-680 | It agrees with `Grammar.PostAt`, and the cursor never moves back. |
| Parsing.Parser.ParsePostExpr2 | src/compiler/parser/Parser.java:682-727 | It agrees with `Grammar.PostTailAt`, and the cursor never moves back. |
| Parsing.Parser.ParseAtomExpr | src/compiler/parser/Parser.java:729-787 | It agrees with `Grammar.AtomAt`, and the cursor never moves back. |
| Parsing.Parser.ParseParenthesized | src/compiler/parser/Parser.java:765-776 | The `(` case of `atom_expr` agrees with `Grammar.AtomAt`. |
| Parsing.Parser.ParseBraced | src/compiler/parser/Parser.java:777-782 | The `{` case of `atom_expr` agrees with `Grammar.AtomAt`. |
| Parsing.Parser.ParseAtomExpr2 | src/compiler/parser/Parser.java:789-836 | It agrees with `Grammar.AtomNameAt`, and the cursor never moves back. |
| Parsing.Parser.ParseAtomExpr3 | src/compiler/parser/Parser.java:838-962 | It agrees with `Grammar.AtomBraceAt`, and the cursor never moves back. |
| Parsing.Parser.ParseIf | src/compiler/parser/Parser.java:843-861 | It agrees with `Grammar.IfAt`. |
| Parsing.Parser.ParseWhile | src/compiler/parser/Parser.java:863-883 | It agrees with `Grammar.WhileAt`. |
| Parsing.Parser.ParseFor | src/compiler/parser/Parser.java:884-932 | It agrees with `Grammar.ForAt`. |
| Parsing.Parser.ParseForBounds | src/compiler/parser/Parser.java:902-914 | It agrees with `Grammar.ForBoundsAt`, and the cursor never moves back. |
| Parsing.Parser.ParseForStep | src/compiler/parser/Parser.java:916-932 | It agrees with `Grammar.ForStepAt`, and the cursor never moves back. |
| Parsing.Parser.ParseAssignment | src/compiler/parser/Parser.java:934-958 | It agrees with `Grammar.AssignmentAt`. |
| Parsing.Parser.ParseAtomExpr4 | src/compiler/parser/Parser.java:965-992 | It agrees with `Grammar.IfElseAt`, and the cursor never moves back. |
| Parsing.Parser.ParseExprs | src/compiler/parser/Parser.java:994-1006 | It agrees with `Grammar.ExprsAt`, and the cursor never moves back. |
| Parsing.Parser.ParseExprs2 | src/compiler/parser/Parser.java:1008-1031 | It agrees with `Grammar.ExprsTailAt`, and the cursor never moves back. |
| TypeFacts.SingleSymbolType | src/compiler/parser/Parser.java:168-191 | On `IDENTIFIER`, `logical`, `integer` or `string`, exactly one symbol is consumed. The result is `TypeName(lexeme)` for an identifier, or the `Atom` of that keyword otherwise. It carries that symbol's position. |
| TypeFacts.NoType | src/compiler/parser/Parser.java:220-223 | Any lookahead other than those four and `arr` is a syntax error at that symbol. |
| TypeFacts.ArrayType | src/compiler/parser/Parser.java:192-219 | `arr [ n ] T` yields `Array(value of n, T)`, spanning from the start of `arr` to the end of `T`. It stops where `T` stops. |
| TypeFacts.Consumes | src/compiler/parser/Parser.java:168-224 | A parsed type consumed exactly the symbols whose kinds it spells, nested arrays included, and nothing more. |
| TypeFacts.ConsumesArray | src/compiler/parser/Parser.java:192-219 | An array type consumes `arr [ n ]` and then the symbols of its element type. |
| TypeFacts.RoundTrip | src/compiler/parser/Parser.java:168-224 | Spelling any type out as symbols and parsing them gives back the same type. The cursor ends right after its last symbol. |
| TypeFacts.RoundTripArray | src/compiler/parser/Parser.java:192-219 | The round trip for an array type, built on its element type's round trip. |
| DefsFacts.DefsTailInOrder | src/compiler/parser/Parser.java:108-142 | A successful `defs2` parses `; d0 ; d1 …` in source order. It stops on `}`, or on the final EOF after skipping it. Its end is that terminator's end. |
| DefsFacts.DefsTailFromSpans | src/compiler/parser/Parser.java:108-142 | Conversely, semicolon-separated definitions that end in `}` or the final EOF are parsed, in order, up to that terminator. |
| DefsFacts.DefsTailConsFromSpans | src/compiler/parser/Parser.java:113-124 | The `;` step of the converse: the first definition and then the rest. |
| DefsFacts.DefsInOrder | src/compiler/parser/Parser.java:74-89 | A definition list is the first definition followed by the `;`-separated rest, in order. It starts where the first definition starts. Its end column is the terminator's end column minus one. |
| DefsFacts.DefsTailError | src/compiler/parser/Parser.java:136-138 | After a definition, any lookahead other than `;`, `}` and EOF is a syntax error at that symbol. |
| DefsFacts.DefsComplete | src/compiler/parser/Parser.java:74-89 | The converse of `DefsInOrder`: a definition followed by `;`-separated definitions ending on `}` or the final EOF is parsed as all of them, in order. The list spans from the first definition's start to one column before the terminator's end. |
| DefsFacts.NoDefinition | src/compiler/parser/Parser.java:91-106 | A definition that starts with neither `typ`, `fun` nor `var` is a syntax error at that symbol. |
| DefsFacts.TypeDefinition | src/compiler/parser/Parser.java:144-166 | `typ x : T` yields `TypeDef(x, T)`, spanning from the start of `typ` to the end of `T`. It stops where `T` stops. |
| DefsFacts.VarDefinition | src/compiler/parser/Parser.java:1034-1057 | `var x : T` yields `VarDef(x, T)`, spanning from the start of `var` to the end of `T`. It stops where `T` stops. |
| DefsFacts.DefinitionHeaderErrors | src/compiler/parser/Parser.java:149-162 | After `typ`, `fun` or `var`, a missing name is a syntax error at that symbol. A name followed by anything but `:` (or `(` after `fun`) is a syntax error at the symbol after the name. |
| DefsFacts.FunctionDefinition | src/compiler/parser/Parser.java:226-265 | `fun f ( params ) : T = e` yields `FunDef(f, params, T, e)`, with the parameters the list production returns, spanning from `fun` to the end of `e`. A body that yields no node is a missing node. |
| DefsFacts.FunctionParts | src/compiler/parser/Parser.java:226-247 | `fun f (` and the parameter list hand the name and parameters on to the rest of the definition. |
| DefsFacts.FunctionBody | src/compiler/parser/Parser.java:248-265 | `: T = e` after the parameters completes the definition, spanning to the end of `e`. |
| ParamsFacts.ParamsTailInOrder | src/compiler/parser/Parser.java:303-322 | A successful `params2` parses `, p0 , p1 …` in source order and has consumed the closing `)`. |
| ParamsFacts.ParamsTailConsInOrder | src/compiler/parser/Parser.java:306-313 | The `,` step: one parameter, then the rest of the list. |
| ParamsFacts.CommaParamsCons | src/compiler/parser/Parser.java:306-313 | A comma and a parameter put in front of comma-separated parameters give the longer list. |
| ParamsFacts.ParamsTailFromSpans | src/compiler/parser/Parser.java:303-322 | Conversely, comma-separated parameters followed by `)` are parsed in order, and the `)` is consumed. |
| ParamsFacts.ParamsTailConsFromSpans | src/compiler/parser/Parser.java:306-313 | The `,` step of the converse. |
| ParamsFacts.ParamsInOrder | src/compiler/parser/Parser.java:267-278 | `params` succeeds with a list exactly when the symbols hold a first parameter, then `,`-separated parameters in that order, then `)`. Both directions are proved. |
| ParamsFacts.ParamsSound | src/compiler/parser/Parser.java:267-278 | A parsed parameter list has that shape. |
| ParamsFacts.ParamsComplete | src/compiler/parser/Parser.java:267-278 | Symbols of that shape are parsed as that list. |
| ParamsFacts.Param | src/compiler/parser/Parser.java:280-301 | `x : T` yields `Parameter(x, T)`, spanning from the name to the end of `T`. It stops where `T` stops. |
| ParamsFacts.ParamErrors | src/compiler/parser/Parser.java:284-296 | A parameter that does not start with a name is a syntax error there. A name not followed by `:` is a syntax error at the symbol after it. |
| ExprFacts.RightNested | src/compiler/parser/Parser.java:375-384 | The reference shape of an operator chain: `e0 op (e1 op …)`. Each node spans to the end of the last operand, and a lone operand stands for itself. |
| ExprFacts.OrTailChain | src/compiler/parser/Parser.java:386-397 | After a `\|`, the remaining operands come back nested to the right. |
| ExprFacts.OrChain | src/compiler/parser/Parser.java:375-384 | `a \| b \| c` yields `Binary(a, OR, Binary(b, OR, c))`. A single operand is returned unchanged, with no node added. |
| ExprFacts.AndTailChain | src/compiler/parser/Parser.java:429-441 | After a `&`, the remaining operands come back nested to the right. |
| ExprFacts.AndChain | src/compiler/parser/Parser.java:418-427 | `a & b & c` yields `Binary(a, AND, Binary(b, AND, c))`. A single operand is returned unchanged. |
| ExprFacts.ComparisonOneToOne | src/compiler/parser/Parser.java:485-492 | `== != <= >= < >` map one-to-one onto `EQ NEQ LEQ GEQ LT GT`. |
| ExprFacts.Comparison | src/compiler/parser/Parser.java:463-498 | `a op b` yields `Binary(a, op, b)`, spanning from the start of `a` to the end of `b`. |
| ExprFacts.NoComparison | src/compiler/parser/Parser.java:463-472 | Without a comparison symbol, the additive operand is the whole comparison, unchanged. |
| ExprFacts.ComparisonStopsConjunction | src/compiler/parser/Parser.java:429-460 | A comparison symbol is neither `&` nor in the follow set of `logical_and_expr2`, so it is a syntax error there. |
| ExprFacts.SecondComparison | src/compiler/parser/Parser.java:418-460 | A comparison symbol right after a comparison makes the conjunction abort at that symbol. |
| ExprFacts.ChainedComparison | src/compiler/parser/Parser.java:324-460 | Comparison does not associate: `a op b op' c` makes the whole expression abort at `op'`. |
| ExprFacts.ConstantOneToOne | src/compiler/parser/Parser.java:736-756 | `C_LOGICAL`, `C_INTEGER` and `C_STRING` map one-to-one onto `LOG`, `INT` and `STR`. |
| ExprFacts.ConstantAtom | src/compiler/parser/Parser.java:736-756 | A constant symbol becomes `Literal(position, lexeme, kind)` and consumes exactly one symbol. |
| ExprFacts.ConstantExpr | src/compiler/parser/Parser.java:324-756 | A constant followed by a symbol that ends an expression is the whole expression, through every precedence level. |
| ExprFacts.ConstantTerm | src/compiler/parser/Parser.java:521-756 | The lower half of that: such a constant is a whole additive expression. |
| ExprFacts.PrefixOneToOne | src/compiler/parser/Parser.java:647-651 | `+`, `-` and `!` map one-to-one onto the unary `ADD`, `SUB` and `NOT`. |
| ExprFacts.Prefix | src/compiler/parser/Parser.java:639-656 | `op e` yields `Unary(e, op)`, spanning from the operator to the end of `e`. It stops where `e` stops. An operand that yields no node is a missing node. |
| ExprFacts.NoPrefixExpr | src/compiler/parser/Parser.java:639-668 | A lookahead that starts neither a prefix nor a postfix expression is a syntax error at that symbol. |
| ExprFacts.IfWithoutElse | src/compiler/parser/Parser.java:843-861 | `{ if c then e }` gets an empty `Block` at the closing brace as its else part, and consumes the brace. |
| ExprFacts.IfWithElse | src/compiler/parser/Parser.java:965-992 | `{ if c then e else f }` gets a one-element `Block` holding `f` as its else part. |
| ExprFacts.WhileLoop | src/compiler/parser/Parser.java:863-883 | `{ while c : e }` yields `While(c, e)`, spanning from `while` to the end of `}`, which is consumed. A condition or body that yields no node is a missing node. |
| ExprFacts.WhileErrors | src/compiler/parser/Parser.java:868-881 | A condition not followed by `:` is a syntax error at that symbol. A body not followed by `}` is a syntax error at the symbol after the body. |
| ExprFacts.ForHeader | src/compiler/parser/Parser.java:884-901 | `for i =` hands the counter `Name(i)` and the start of `for` on to the loop bounds. |
| ExprFacts.ForBounds | src/compiler/parser/Parser.java:902-914 | `lo , hi ,` hands both bounds on to the step and body. |
| ExprFacts.ForStep | src/compiler/parser/Parser.java:916-932 | `step : e }` completes `For(i, lo, hi, step, e)`, spanning from `for` to the end of `}`, which is consumed. A part that yields no node is a missing node. With `ForHeader` and `ForBounds` this gives the node for the whole `for`. |
| ExprFacts.ForErrors | src/compiler/parser/Parser.java:889-901 | A `for` not followed by a name is a syntax error at that symbol. A counter not followed by `=` is a syntax error at the symbol after it. |
| ExprFacts.ExprsTailInOrder | src/compiler/parser/Parser.java:1008-1031 | A successful `exprs2` parses `, e0 , e1 …` in order. It stops on `)` without consuming it. |
| ExprFacts.ExprsTailFromSpans | src/compiler/parser/Parser.java:1008-1031 | Conversely, comma-separated expressions before `)` are parsed in order, leaving the `)` unread. |
| ExprFacts.ExprsInOrder | src/compiler/parser/Parser.java:994-1006 | `exprs` succeeds with a list exactly when the symbols hold a first expression, then `,`-separated expressions, then `)`. The `)` is not consumed. Both directions are proved. |
| ExprFacts.CallExpr | src/compiler/parser/Parser.java:789-804 | `id ( args )` yields `Call(args, id)` with the arguments in order, up to and including `)`. |
| ExprFacts.Parenthesized | src/compiler/parser/Parser.java:765-776 | `( e0 , … , en )` yields `Block(e0 … en)` with the expressions in order, spanning from `(` to `)`, which is consumed. |
| ExprFacts.NameTail | src/compiler/parser/Parser.java:805-831 | A lookahead that may follow a bare name leaves the name as it is and is not consumed. |
| ExprFacts.NameAtom | src/compiler/parser/Parser.java:757-764 | An identifier not followed by `(` is `Name(lexeme)` and consumes one symbol. |
| ExprFacts.WhereTail | src/compiler/parser/Parser.java:335-356 | `{ where defs }` after `e` yields `Where(e, defs)`. Its end is that of the symbol after `}`, since the brace is skipped before the end is read. |
| ExprFacts.ExprWithTail | src/compiler/parser/Parser.java:324-333 | A where clause after the disjunction becomes the value of the expression. |
| ExprFacts.ExprWithoutTail | src/compiler/parser/Parser.java:324-373 | When a symbol that ends an expression follows the disjunction, `expr2` yields nothing and leaves that symbol unread. The expression is then the disjunction, unchanged. |
| ExprFacts.WhereExpr | src/compiler/parser/Parser.java:324-356 | `e { where defs }` as a whole expression is `Where(e, defs)`, up to and including `}`. |

## Left out

- The production trace (`dump` and `productionsOutputStream`) only prints. It is not modelled.
- `Report.error` is not part of this model. Every error branch is an abort (`SyntaxError`)
  at the symbol under the cursor. The source's continuation after an error, and the null
  dereferences that would follow it, are not modelled.
- The AST classes are not part of this model. Their constructors are taken to reject null
  arguments, and such a use is the abort `MissingNode`.
- Grammar.IfElseAt: the source stores a null else expression in the else block's list without
  failing, because `requireNonNull` checks only the list. The model's `seq<Expr>` cannot hold a
  null, so the model aborts with `MissingNode` there.
- `Integer.parseInt` is modelled for ASCII digits with an optional sign. The other Unicode
  digits Java accepts are not modelled. The model assumes that the lexer builds integer
  constants from ASCII digits only; the lexer is not part of this model.
- `Parsing.Parser.constructor` requires a non-empty symbol list that ends with EOF. The parser
  does not check this; the model assumes it of the lexer's output, which is not part of this
  model.
  - `getSymbol` on an empty list would throw.
  - The final EOF is what makes the source terminate. `skip` guards itself and never leaves a
    non-empty list, but it does not move on the last symbol (Parser.java:55-58).
  - Without the final EOF, a list whose last symbol is `+`, `-` or `!` makes `parsePreExpr`
    call itself forever at that symbol (Parser.java:647-656). A last `(` or `{` does the same
    through `parseAtomExpr` (Parser.java:765-782).
  - The model's termination measure, `|toks| - p`, relies on this requirement (`WellFormed`).
- The list lemmas of `DefsFacts` also assume that EOF occurs nowhere but at the end of the
  list (`Lexed`). The parser does not check this either.
- No correctness properties are stated for the unfinished productions. They are modelled
  exactly as written, with contracts that only bound the cursor:
  - the postfix `[ … ]` tail, whose result is discarded (Parser.java:670-727);
  - the assignment branch, which parses both sides and yields no node (Parser.java:934-958);
  - the `+ -` tail (Parser.java:532-576). With no inner tail it builds the operand twice under
    its own operator. With an inner tail it builds the operand and that tail under the inner
    tail's operator.
  - the `* / %` tail (Parser.java:589-637). It always builds the operand twice under its own
    operator; an inner tail only gives the node's end.
- `parse` does not check that the definitions reach EOF. A top-level list that stops on `}`
  returns with the rest of the input unread. The model keeps this behaviour and proves nothing
  beyond it.
- `src/Main.java`, the command-line driver, and `src/common/Constants.java`, which holds only
  constants, have no parsing logic and are not modelled.
- The later compiler passes (name checking, type checking, frames, IR, interpretation) are
  not part of this model.
