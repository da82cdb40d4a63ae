/** The C back end (`CodeGenerator.cpp`). The generator's three fields — the
    output text, the set of builtins in use and the indentation level — are
    threaded through every emitter as a `Gen` value, in the order the C++
    writes them. Beside it stand reference definitions of the text each node
    lowers to and of the builtins a program uses, and lemmas that tie the two
    together. */
module CodeGen {
  import opened Common
  import opened Ast
  import Lexer

  // ---------------------------------------------------------------------
  // Builtins

  /** The names under which `addBuiltinFunction` records the two builtins. */
  const PRINTLN: string := "std::println"
  const PRINT: string := "std::print"

  /** `isBuiltinFunction`: the four spellings of the two builtins. */
  predicate IsBuiltin(name: string) {
    name == "std::println" || name == "std::print" || name == "println" || name == "print"
  }

  /** The normalised name a builtin spelling stands for. */
  function Key(name: string): (r: string)
    requires IsBuiltin(name)
    ensures r == PRINTLN || r == PRINT
    ensures r == PRINTLN <==> name == "println" || name == "std::println"
  {
    if name == "println" || name == "std::println" then PRINTLN else PRINT
  }

  /** The C helper that carries out a builtin. */
  function HelperName(key: string): string {
    if key == PRINTLN then "thor_println" else "thor_print"
  }

  /** `addBuiltinFunction`: records the normalised name of a builtin spelling
      and ignores every other name. */
  function AddBuiltin(found: set<string>, name: string): (r: set<string>)
    ensures IsBuiltin(name) ==> r == found + {Key(name)}
    ensures !IsBuiltin(name) ==> r == found
  {
    if name == "println" || name == "std::println" then found + {PRINTLN}
    else if name == "print" || name == "std::print" then found + {PRINT}
    else found
  }

  /** `translateBuiltinFunction`: a builtin becomes the helper that its
      normalised name selects; any other name is left alone. */
  function Translate(name: string): (r: string)
    ensures IsBuiltin(name) ==> r == HelperName(Key(name))
    ensures !IsBuiltin(name) ==> r == name
  {
    if name == "std::println" || name == "println" then "thor_println"
    else if name == "std::print" || name == "print" then "thor_print"
    else name
  }

  /** A name is changed by the translation exactly when it is a builtin. */
  lemma TranslateChangesOnlyBuiltins(name: string)
    ensures Translate(name) != name <==> IsBuiltin(name)
  {
  }

  // ---------------------------------------------------------------------
  // The fixed text: includes and helper definitions

  /** `generateIncludes`: three headers and a blank line. */
  function Includes(): string {
    "#include <stdio.h>\n" + "#include <stdlib.h>\n" + "#include <string.h>\n" + "\n"
  }

  /** The helper `generateBuiltinFunctions` writes for `std::println`. */
  function PrintlnDefinition(): string {
    "// Built-in function for std::println\n"
    + "void thor_println(const char* str) {\n"
    + "    printf(\"%s\\n\", str);\n"
    + "}\n\n"
  }

  /** The helper `generateBuiltinFunctions` writes for `std::print`. */
  function PrintDefinition(): string {
    "// Built-in function for std::print\n"
    + "void thor_print(const char* str) {\n"
    + "    printf(\"%s\", str);\n"
    + "}\n\n"
  }

  /** `generateBuiltinFunctions`: the helper of each recorded builtin, the
      `println` one first. */
  function Helpers(builtins: set<string>): string {
    (if PRINTLN in builtins then PrintlnDefinition() else "")
    + (if PRINT in builtins then PrintDefinition() else "")
  }

  /** `s` ends with `w`. */
  predicate EndsWith(s: string, w: string) {
    |w| <= |s| && s[|s| - |w|..] == w
  }

  /** Each helper definition is in the helper text exactly when its builtin
      was recorded: the `println` one leads it, the `print` one ends it. */
  lemma HelpersPresentIffRecorded(builtins: set<string>)
    ensures PRINTLN in builtins <==> PrintlnDefinition() <= Helpers(builtins)
    ensures PRINT in builtins <==> EndsWith(Helpers(builtins), PrintDefinition())
  {
    var ln := PrintlnDefinition();
    var pr := PrintDefinition();
    assert |pr| < |ln|;
    if PRINT !in builtins && PRINTLN in builtins {
      assert ln[|ln| - 13] != pr[|pr| - 13];
    }
  }

  // ---------------------------------------------------------------------
  // String literals

  /** `generateStringLiteral` as written: the value between quotes, with
      nothing escaped. */
  function LiteralAsWritten(value: string): (r: string)
    ensures |r| == |value| + 2 && r[0] == '"' && r[|r| - 1] == '"'
    ensures r[1..|r| - 1] == value
  {
    "\"" + value + "\""
  }

  /** The literal with its body escaped, which reads back as the value. */
  function Literal(value: string): (r: string)
    ensures |r| >= |value| + 2 && r[0] == '"' && r[|r| - 1] == '"'
  {
    "\"" + Lexer.Escape(value) + "\""
  }

  /** A value holding a quote: the literal written as it stands ends at
      that quote, so what a string reader takes from it is only `a`. */
  lemma QuoteEndsLiteralEarly(value: string, src: string)
    requires value == "a\"b" && src == LiteralAsWritten(value)
    ensures Lexer.ReadString(src, Lexer.Cursor(0, 1, 1)).tok.value == "a"
    ensures Lexer.ReadString(src, Lexer.Cursor(0, 1, 1)).tok.value != value
  {
    assert src == "\"a\"b\"";
    var c0 := Lexer.Cursor(0, 1, 1);
    var c1 := Lexer.Advance(src, c0);
    var c2 := Lexer.Advance(src, c1);
    assert c1.pos == 1 && c2.pos == 2;
    assert Lexer.StringLoop(src, c2, "a") == ("a", c2);
    assert Lexer.StringLoop(src, c1, "") == ("a", c2);
  }

  /** The escaped literal reads back as the value it was made from. */
  lemma LiteralReadsBack(value: string)
    requires '\0' !in value
    ensures Lexer.ReadString(Literal(value), Lexer.Cursor(0, 1, 1)).tok.value == value
    ensures Lexer.ReadString(Literal(value), Lexer.Cursor(0, 1, 1)).next.pos == |Literal(value)|
  {
    Lexer.ReadStringOfEscape(Literal(value), Lexer.Cursor(0, 1, 1), value);
  }

  // ---------------------------------------------------------------------
  // The builtin pre-scan

  /** `scanForBuiltins` on an expression: records every builtin call, the
      callee before its arguments. */
  function ScanExpr(found: set<string>, e: Expr): (r: set<string>)
    ensures found <= r <= found + {PRINTLN, PRINT}
    decreases e, 1
  {
    match e
    case FunctionCall(name, args) =>
      ScanArgs(if IsBuiltin(name) then AddBuiltin(found, name) else found, args, 0)
    case BinaryOperation(left, _, right) => ScanExpr(ScanExpr(found, left), right)
    case UnaryOperation(_, operand) => ScanExpr(found, operand)
    case _ => found
  }

  /** The loop over a call's arguments, from the `i`-th on. */
  function ScanArgs(found: set<string>, args: seq<Expr>, i: nat): (r: set<string>)
    requires i <= |args|
    ensures found <= r <= found + {PRINTLN, PRINT}
    decreases args, |args| - i
  {
    if i == |args| then found else ScanArgs(ScanExpr(found, args[i]), args, i + 1)
  }

  /** `scanForBuiltins` on a statement: the expressions it holds and the
      statements nested in it. Extern and import declarations hold none. */
  function ScanStmt(found: set<string>, s: Stmt): (r: set<string>)
    ensures found <= r <= found + {PRINTLN, PRINT}
    decreases s, 1
  {
    match s
    case VariableDeclaration(_, _, init) => if init.Some? then ScanExpr(found, init.value) else found
    case Assignment(_, value) => ScanExpr(found, value)
    case ExpressionStatement(expr) => ScanExpr(found, expr)
    case ReturnStatement(result) => if result.Some? then ScanExpr(found, result.value) else found
    case Block(stmts) => ScanStmts(found, stmts, 0)
    case IfStatement(cond, thenStmt, elseStmt) =>
      var afterThen := ScanStmt(ScanExpr(found, cond), thenStmt);
      if elseStmt.Some? then ScanStmt(afterThen, elseStmt.value) else afterThen
    case WhileStatement(cond, loopBody) => ScanStmt(ScanExpr(found, cond), loopBody)
    case FunctionDeclaration(_, _, _, body) => if body.Some? then ScanStmts(found, body.value.stmts, 0) else found
    case ExternDeclaration(_, _, _) => found
    case ImportStatement(_) => found
  }

  /** The loop over a statement list, from the `i`-th on. */
  function ScanStmts(found: set<string>, stmts: seq<Stmt>, i: nat): (r: set<string>)
    requires i <= |stmts|
    ensures found <= r <= found + {PRINTLN, PRINT}
    decreases stmts, |stmts| - i
  {
    if i == |stmts| then found else ScanStmts(ScanStmt(found, stmts[i]), stmts, i + 1)
  }

  /** The callee names of every call in `e`, however deeply nested. */
  function CallNames(e: Expr): set<string>
    decreases e, 1
  {
    match e
    case FunctionCall(name, args) => {name} + ArgsCallNames(args)
    case BinaryOperation(left, _, right) => CallNames(left) + CallNames(right)
    case UnaryOperation(_, operand) => CallNames(operand)
    case _ => {}
  }

  /** The callee names of every call in a list of expressions. */
  function ArgsCallNames(args: seq<Expr>): set<string>
    decreases args, 0
  {
    if args == [] then {} else CallNames(args[0]) + ArgsCallNames(args[1..])
  }

  /** The callee names of every call anywhere in a statement. */
  function StmtCallNames(s: Stmt): set<string>
    decreases s, 1
  {
    match s
    case VariableDeclaration(_, _, init) => if init.Some? then CallNames(init.value) else {}
    case Assignment(_, value) => CallNames(value)
    case ExpressionStatement(expr) => CallNames(expr)
    case ReturnStatement(result) => if result.Some? then CallNames(result.value) else {}
    case Block(stmts) => StmtsCallNames(stmts)
    case IfStatement(cond, thenStmt, elseStmt) =>
      CallNames(cond) + StmtCallNames(thenStmt) + (if elseStmt.Some? then StmtCallNames(elseStmt.value) else {})
    case WhileStatement(cond, loopBody) => CallNames(cond) + StmtCallNames(loopBody)
    case FunctionDeclaration(_, _, _, body) => if body.Some? then StmtsCallNames(body.value.stmts) else {}
    case ExternDeclaration(_, _, _) => {}
    case ImportStatement(_) => {}
  }

  /** The callee names of every call anywhere in a statement list. */
  function StmtsCallNames(stmts: seq<Stmt>): set<string>
    decreases stmts, 0
  {
    if stmts == [] then {} else StmtCallNames(stmts[0]) + StmtsCallNames(stmts[1..])
  }

  /** The normalised names of the builtins among `names`. */
  function BuiltinKeys(names: set<string>): set<string> {
    set n | n in names && IsBuiltin(n) :: Key(n)
  }

  /** The builtins a program uses: the normalised names of its builtin calls,
      wherever they stand. */
  function BuiltinsUsed(p: Program): set<string> {
    BuiltinKeys(StmtsCallNames(p.stmts))
  }

  /** The builtins of a union are those of its parts. */
  lemma KeysOfUnion(a: set<string>, b: set<string>)
    ensures BuiltinKeys(a + b) == BuiltinKeys(a) + BuiltinKeys(b)
  {
  }

  /** The builtins of a single name. */
  lemma KeysOfName(name: string)
    ensures BuiltinKeys({name}) == if IsBuiltin(name) then {Key(name)} else {}
  {
    if IsBuiltin(name) {
      assert Key(name) in BuiltinKeys({name});
    }
  }

  /** The pre-scan of an expression records exactly the normalised names of
      the builtin calls in it. */
  lemma {:induction false} ScanExprFinds(found: set<string>, e: Expr)
    ensures ScanExpr(found, e) == found + BuiltinKeys(CallNames(e))
    decreases e, 1
  {
    match e
    case FunctionCall(name, args) =>
      var start := if IsBuiltin(name) then AddBuiltin(found, name) else found;
      KeysOfName(name);
      KeysOfUnion({name}, ArgsCallNames(args));
      assert args[0..] == args;
      ScanArgsFinds(start, args, 0);
    case BinaryOperation(left, _, right) =>
      ScanExprFinds(found, left);
      ScanExprFinds(ScanExpr(found, left), right);
      KeysOfUnion(CallNames(left), CallNames(right));
    case UnaryOperation(_, operand) =>
      ScanExprFinds(found, operand);
    case NumberLiteral(_) =>
    case StringLiteral(_) =>
    case BoolLiteral(_) =>
    case Identifier(_) =>
  }

  /** The same for the arguments from the `i`-th on. */
  lemma {:induction false} ScanArgsFinds(found: set<string>, args: seq<Expr>, i: nat)
    requires i <= |args|
    ensures ScanArgs(found, args, i) == found + BuiltinKeys(ArgsCallNames(args[i..]))
    decreases args, |args| - i
  {
    if i < |args| {
      assert args[i..][0] == args[i] && args[i..][1..] == args[i + 1..];
      ScanExprFinds(found, args[i]);
      ScanArgsFinds(ScanExpr(found, args[i]), args, i + 1);
      KeysOfUnion(CallNames(args[i]), ArgsCallNames(args[i + 1..]));
    }
  }

  /** The pre-scan of a statement records exactly the normalised names of
      the builtin calls anywhere in it. */
  lemma {:induction false} ScanStmtFinds(found: set<string>, s: Stmt)
    ensures ScanStmt(found, s) == found + BuiltinKeys(StmtCallNames(s))
    decreases s, 1
  {
    match s
    case VariableDeclaration(_, _, init) =>
      if init.Some? {
        ScanExprFinds(found, init.value);
      }
    case Assignment(_, value) =>
      ScanExprFinds(found, value);
    case ExpressionStatement(expr) =>
      ScanExprFinds(found, expr);
    case ReturnStatement(result) =>
      if result.Some? {
        ScanExprFinds(found, result.value);
      }
    case Block(stmts) =>
      assert stmts[0..] == stmts;
      ScanStmtsFinds(found, stmts, 0);
    case IfStatement(cond, thenStmt, elseStmt) =>
      var afterCond := ScanExpr(found, cond);
      ScanExprFinds(found, cond);
      ScanStmtFinds(afterCond, thenStmt);
      KeysOfUnion(CallNames(cond), StmtCallNames(thenStmt));
      var elseNames: set<string> := if elseStmt.Some? then StmtCallNames(elseStmt.value) else {};
      KeysOfUnion(CallNames(cond) + StmtCallNames(thenStmt), elseNames);
      if elseStmt.Some? {
        ScanStmtFinds(ScanStmt(afterCond, thenStmt), elseStmt.value);
      }
    case WhileStatement(cond, loopBody) =>
      ScanExprFinds(found, cond);
      ScanStmtFinds(ScanExpr(found, cond), loopBody);
      KeysOfUnion(CallNames(cond), StmtCallNames(loopBody));
    case FunctionDeclaration(_, _, _, body) =>
      if body.Some? {
        assert body.value.stmts[0..] == body.value.stmts;
        ScanStmtsFinds(found, body.value.stmts, 0);
      }
    case ExternDeclaration(_, _, _) =>
    case ImportStatement(_) =>
  }

  /** The same for a statement list from the `i`-th statement on. */
  lemma {:induction false} ScanStmtsFinds(found: set<string>, stmts: seq<Stmt>, i: nat)
    requires i <= |stmts|
    ensures ScanStmts(found, stmts, i) == found + BuiltinKeys(StmtsCallNames(stmts[i..]))
    decreases stmts, |stmts| - i
  {
    if i < |stmts| {
      assert stmts[i..][0] == stmts[i] && stmts[i..][1..] == stmts[i + 1..];
      ScanStmtFinds(found, stmts[i]);
      ScanStmtsFinds(ScanStmt(found, stmts[i]), stmts, i + 1);
      KeysOfUnion(StmtCallNames(stmts[i]), StmtsCallNames(stmts[i + 1..]));
    }
  }

  /** The pre-scan `generate` runs over the top-level statements records
      exactly the builtins the program uses. */
  lemma PreScanFindsBuiltinsUsed(p: Program)
    ensures ScanStmts({}, p.stmts, 0) == BuiltinsUsed(p)
  {
    assert p.stmts[0..] == p.stmts;
    ScanStmtsFinds({}, p.stmts, 0);
  }

  // ---------------------------------------------------------------------
  // The text each node lowers to

  /** `indent()`: four blanks per level, nothing at a level of zero or below. */
  function Margin(level: int): (r: string)
    ensures |r| == if level <= 0 then 0 else 4 * level
    ensures forall i :: 0 <= i < |r| ==> r[i] == ' '
  {
    if level <= 0 then "" else Spaces(4 * level)
  }

  /** The C text of an expression: literals as they are (string bodies
      escaped), booleans as `1`/`0`, every binary operation in parentheses,
      a unary operator before its parenthesised operand, and a call as the
      translated name and the `, `-separated arguments. */
  function ExprText(e: Expr): string
    decreases e, 1
  {
    match e
    case NumberLiteral(text) => text
    case StringLiteral(value) => Literal(value)
    case BoolLiteral(truth) => if truth then "1" else "0"
    case Identifier(name) => name
    case BinaryOperation(left, op, right) => "(" + ExprText(left) + " " + op + " " + ExprText(right) + ")"
    case UnaryOperation(op, operand) => op + "(" + ExprText(operand) + ")"
    case FunctionCall(name, args) => Translate(name) + "(" + ArgsText(args, 0) + ")"
  }

  /** The arguments of a call from the `i`-th on, each after a `, ` except
      the first of the call. */
  function ArgsText(args: seq<Expr>, i: nat): string
    requires i <= |args|
    decreases args, |args| - i
  {
    if i == |args| then ""
    else if i == 0 then ExprText(args[i]) + ArgsText(args, i + 1)
    else ", " + ExprText(args[i]) + ArgsText(args, i + 1)
  }

  /** The C text of a statement at `level`. Declarations of functions and
      externs start where they stand, without a margin; a function body's
      closing brace has none either. */
  function StmtText(s: Stmt, level: nat): string
    decreases s, 1
  {
    match s
    case VariableDeclaration(ty, name, init) => VariableText(ty, name, init, level)
    case Assignment(name, value) => Margin(level) + name + " = " + ExprText(value) + ";"
    case ExpressionStatement(expr) => Margin(level) + ExprText(expr) + ";"
    case ReturnStatement(result) => ReturnText(result, level)
    case Block(stmts) => Margin(level) + "{\n" + StmtsText(stmts, level + 1, 0) + Margin(level) + "}"
    case IfStatement(cond, thenStmt, elseStmt) => IfText(cond, thenStmt, elseStmt, level)
    case WhileStatement(cond, loopBody) => WhileText(cond, loopBody, level)
    case FunctionDeclaration(ret, name, params, body) => FunctionText(ret, name, params, body, level)
    case ExternDeclaration(ret, name, params) =>
      "extern " + TypeToCType(ret) + " " + name + "(" + ParamsText(params, true) + ");"
    case ImportStatement(moduleName) => Margin(level) + "// Import: " + moduleName
  }

  /** A declaration: type, name, the initializer if any, then `;`. */
  function VariableText(ty: Type, name: string, init: Option<Expr>, level: nat): string
    decreases VariableDeclaration(ty, name, init), 0
  {
    var head := Margin(level) + TypeToCType(ty) + " " + name;
    (if init.Some? then head + " = " + ExprText(init.value) else head) + ";"
  }

  /** `return`, the value if any, then `;`. */
  function ReturnText(result: Option<Expr>, level: nat): string
    decreases ReturnStatement(result), 0
  {
    var head := Margin(level) + "return";
    (if result.Some? then head + " " + ExprText(result.value) else head) + ";"
  }

  /** `if (cond) ` and the then-branch, then ` else ` and the else-branch
      when there is one. */
  function IfText(cond: Expr, thenStmt: Stmt, elseStmt: Option<Stmt>, level: nat): string
    decreases IfStatement(cond, thenStmt, elseStmt), 0
  {
    var afterThen := Margin(level) + "if (" + ExprText(cond) + ") " + BranchText(thenStmt, level);
    if elseStmt.Some? then afterThen + " else " + BranchText(elseStmt.value, level) else afterThen
  }

  /** `while (cond) ` and the body. */
  function WhileText(cond: Expr, loopBody: Stmt, level: nat): string
    decreases WhileStatement(cond, loopBody), 0
  {
    Margin(level) + "while (" + ExprText(cond) + ") " + BranchText(loopBody, level)
  }

  /** The signature, then the body's statements one level deeper inside
      braces, or `;` for a prototype. */
  function FunctionText(ret: Type, name: string, params: seq<Param>, body: Option<Body>, level: nat): string
    decreases FunctionDeclaration(ret, name, params, body), 0
  {
    var signature := TypeToCType(ret) + " " + name + "(" + ParamsText(params, true) + ") ";
    if body.Some? then signature + "{\n" + StmtsText(body.value.stmts, level + 1, 0) + "}" else signature + ";"
  }

  /** The branch of an `if` or the body of a `while` after its `) `: a block
      opens on the same line and closes at `level`; any other statement goes
      on the next line, one level deeper. */
  function BranchText(s: Stmt, level: nat): string
    decreases s, 2
  {
    if s.Block? then "{\n" + StmtsText(s.stmts, level + 1, 0) + Margin(level) + "}"
    else "\n" + StmtText(s, level + 1)
  }

  /** The statements of a list from the `i`-th on, at `level`, each
      followed by a line break. */
  function StmtsText(stmts: seq<Stmt>, level: nat, i: nat): string
    requires i <= |stmts|
    decreases stmts, |stmts| - i
  {
    if i == |stmts| then "" else StmtText(stmts[i], level) + "\n" + StmtsText(stmts, level, i + 1)
  }

  /** The whole translation unit: the includes, the helpers of the builtins
      the program uses, then each top-level statement and a line break. */
  function ProgramText(p: Program): string {
    Includes() + Helpers(BuiltinsUsed(p)) + StmtsText(p.stmts, 0, 0)
  }

  // ---------------------------------------------------------------------
  // The generator

  /** The generator's fields: the output written so far, the builtins
      recorded and the indentation level. */
  datatype Gen = Gen(out: string, builtins: set<string>, level: int)

  /** `output << text`. */
  function Write(g: Gen, text: string): Gen {
    g.(out := g.out + text)
  }

  /** `indent()`. */
  function Pad(g: Gen): Gen {
    Write(g, Margin(g.level))
  }

  /** `indentLevel++`. */
  function Enter(g: Gen): Gen {
    g.(level := g.level + 1)
  }

  /** `indentLevel--`. */
  function Leave(g: Gen): Gen {
    g.(level := g.level - 1)
  }

  /** `generateExpression` and the seven expression emitters. A builtin call
      records its builtin again, as `generateFunctionCall` does. */
  function GenExpr(g: Gen, e: Expr): (r: Gen)
    ensures r.level == g.level
    decreases e, 1
  {
    match e
    case NumberLiteral(text) => Write(g, text)
    case StringLiteral(value) => Write(g, Literal(value))
    case BoolLiteral(truth) => Write(g, if truth then "1" else "0")
    case Identifier(name) => Write(g, name)
    case BinaryOperation(left, op, right) =>
      Write(GenExpr(Write(Write(Write(GenExpr(Write(g, "("), left), " "), op), " "), right), ")")
    case UnaryOperation(op, operand) => Write(GenExpr(Write(Write(g, op), "("), operand), ")")
    case FunctionCall(name, args) =>
      var callee :=
        if IsBuiltin(name) then Write(g.(builtins := AddBuiltin(g.builtins, name)), Translate(name))
        else Write(g, name);
      Write(GenArgs(Write(callee, "("), args, 0), ")")
  }

  /** The argument loop of `generateFunctionCall`, from the `i`-th argument on. */
  function GenArgs(g: Gen, args: seq<Expr>, i: nat): (r: Gen)
    requires i <= |args|
    ensures r.level == g.level
    decreases args, |args| - i
  {
    if i == |args| then g
    else GenArgs(GenExpr(if i > 0 then Write(g, ", ") else g, args[i]), args, i + 1)
  }

  /** The parameter loop of the two declaration emitters, from the `i`-th
      parameter on. */
  function GenParams(g: Gen, params: seq<Param>, i: nat): (r: Gen)
    requires i <= |params|
    ensures r.level == g.level && r.builtins == g.builtins
    decreases |params| - i
  {
    if i == |params| then g
    else
      var sep := if i > 0 then Write(g, ", ") else g;
      GenParams(Write(Write(Write(sep, TypeToCType(params[i].ty)), " "), params[i].name), params, i + 1)
  }

  /** `generateStatement`: dispatch on the kind of statement. Each emitter
      leaves the indentation level as it found it. */
  function GenStmt(g: Gen, s: Stmt): (r: Gen)
    ensures r.level == g.level
    decreases s, 1
  {
    match s
    case VariableDeclaration(ty, name, init) => GenVariable(g, ty, name, init)
    case Assignment(name, value) => Write(GenExpr(Write(Write(Pad(g), name), " = "), value), ";")
    case ExpressionStatement(expr) => Write(GenExpr(Pad(g), expr), ";")
    case ReturnStatement(result) => GenReturn(g, result)
    case Block(stmts) => GenBlock(g, stmts, true)
    case IfStatement(cond, thenStmt, elseStmt) => GenIf(g, cond, thenStmt, elseStmt)
    case WhileStatement(cond, loopBody) => GenWhile(g, cond, loopBody)
    case FunctionDeclaration(ret, name, params, body) => GenFunction(g, ret, name, params, body)
    case ExternDeclaration(ret, name, params) =>
      Write(GenParams(Write(Write(Write(Write(Write(g, "extern "), TypeToCType(ret)), " "), name), "("), params, 0), ");")
    case ImportStatement(moduleName) => Write(Write(Pad(g), "// Import: "), moduleName)
  }

  /** `generateVariableDeclaration`. */
  function GenVariable(g: Gen, ty: Type, name: string, init: Option<Expr>): (r: Gen)
    ensures r.level == g.level
    decreases VariableDeclaration(ty, name, init), 0
  {
    var head := Write(Write(Write(Pad(g), TypeToCType(ty)), " "), name);
    Write(if init.Some? then GenExpr(Write(head, " = "), init.value) else head, ";")
  }

  /** `generateReturnStatement`. */
  function GenReturn(g: Gen, result: Option<Expr>): (r: Gen)
    ensures r.level == g.level
    decreases ReturnStatement(result), 0
  {
    var head := Write(Pad(g), "return");
    Write(if result.Some? then GenExpr(Write(head, " "), result.value) else head, ";")
  }

  /** `generateIfStatement`. */
  function GenIf(g: Gen, cond: Expr, thenStmt: Stmt, elseStmt: Option<Stmt>): (r: Gen)
    ensures r.level == g.level
    decreases IfStatement(cond, thenStmt, elseStmt), 0
  {
    var afterThen := GenBranch(Write(GenExpr(Write(Pad(g), "if ("), cond), ") "), thenStmt);
    if elseStmt.Some? then GenBranch(Write(afterThen, " else "), elseStmt.value) else afterThen
  }

  /** `generateWhileStatement`. */
  function GenWhile(g: Gen, cond: Expr, loopBody: Stmt): (r: Gen)
    ensures r.level == g.level
    decreases WhileStatement(cond, loopBody), 0
  {
    GenBranch(Write(GenExpr(Write(Pad(g), "while ("), cond), ") "), loopBody)
  }

  /** `generateFunctionDeclaration`. */
  function GenFunction(g: Gen, ret: Type, name: string, params: seq<Param>, body: Option<Body>): (r: Gen)
    ensures r.level == g.level
    decreases FunctionDeclaration(ret, name, params, body), 0
  {
    var head := Write(GenParams(Write(Write(Write(Write(g, TypeToCType(ret)), " "), name), "("), params, 0), ") ");
    if body.Some? then Write(Leave(GenBlock(Enter(Write(head, "{\n")), body.value.stmts, false)), "}")
    else Write(head, ";")
  }

  /** A branch of `generateIfStatement`, or the body in
      `generateWhileStatement`, after the `) ` has been written. */
  function GenBranch(g: Gen, s: Stmt): (r: Gen)
    ensures r.level == g.level
    decreases s, 2
  {
    if s.Block? then Write(Pad(Leave(GenBlock(Enter(Write(g, "{\n")), s.stmts, false))), "}")
    else Leave(GenStmt(Enter(Write(g, "\n")), s))
  }

  /** `generateBlock(block, addBraces)`; a `Block` statement asks for the braces. */
  function GenBlock(g: Gen, stmts: seq<Stmt>, addBraces: bool): (r: Gen)
    ensures r.level == g.level
    decreases stmts, 3
  {
    var start := if addBraces then Enter(Write(Pad(g), "{\n")) else g;
    var body := GenStmts(start, stmts, 0);
    if addBraces then Write(Pad(Leave(body)), "}") else body
  }

  /** The statement loop of `generateBlock`, from the `i`-th statement on:
      each statement, then a line break. */
  function GenStmts(g: Gen, stmts: seq<Stmt>, i: nat): (r: Gen)
    requires i <= |stmts|
    ensures r.level == g.level
    decreases stmts, 2, |stmts| - i
  {
    if i == |stmts| then g else GenStmts(Write(GenStmt(g, stmts[i]), "\n"), stmts, i + 1)
  }

  /** `generate`: reset, the pre-scan of every top-level statement, the
      includes, the helpers the scan asked for, then each top-level
      statement followed by a line break. */
  function Generate(p: Program): string {
    var scanned := Gen("", ScanStmts({}, p.stmts, 0), 0);
    var head := Write(Write(scanned, Includes()), Helpers(scanned.builtins));
    GenStmts(head, p.stmts, 0).out
  }

  // ---------------------------------------------------------------------
  // The generator writes the reference text

  /** Appending pieces one by one appends their concatenation, for two to
      seven pieces. */
  lemma Regroup2(a: string, b: string, c: string)
    ensures a + b + c == a + (b + c)
  {
  }

  lemma Regroup3(a: string, b: string, c: string, d: string)
    ensures a + b + c + d == a + (b + c + d)
  {
  }

  lemma Regroup4(a: string, b: string, c: string, d: string, e: string)
    ensures a + b + c + d + e == a + (b + c + d + e)
  {
  }

  lemma Regroup5(a: string, b: string, c: string, d: string, e: string, f: string)
    ensures a + b + c + d + e + f == a + (b + c + d + e + f)
  {
  }

  lemma Regroup6(a: string, b: string, c: string, d: string, e: string, f: string, h: string)
    ensures a + b + c + d + e + f + h == a + (b + c + d + e + f + h)
  {
  }

  lemma Regroup7(a: string, b: string, c: string, d: string, e: string, f: string, h: string, k: string)
    ensures a + b + c + d + e + f + h + k == a + (b + c + d + e + f + h + k)
  {
  }

  /** An expression emitter appends the expression's text, records what the
      pre-scan of the expression records, and keeps the level. */
  lemma {:induction false} GenExprWrites(g: Gen, e: Expr)
    ensures GenExpr(g, e) == Gen(g.out + ExprText(e), ScanExpr(g.builtins, e), g.level)
    decreases e, 1
  {
    match e
    case NumberLiteral(_) =>
    case StringLiteral(_) =>
    case BoolLiteral(_) =>
    case Identifier(_) =>
    case BinaryOperation(left, op, right) => BinaryWrites(g, left, op, right);
    case UnaryOperation(op, operand) => UnaryWrites(g, op, operand);
    case FunctionCall(name, args) => CallWrites(g, name, args);
  }

  /** `GenExprWrites` for a binary operation. */
  lemma {:induction false} BinaryWrites(g: Gen, left: Expr, op: string, right: Expr)
    ensures GenExpr(g, BinaryOperation(left, op, right))
         == Gen(g.out + ExprText(BinaryOperation(left, op, right)), ScanExpr(ScanExpr(g.builtins, left), right), g.level)
    decreases BinaryOperation(left, op, right), 0
  {
    var g1 := Write(g, "(");
    GenExprWrites(g1, left);
    var g2 := Write(Write(Write(GenExpr(g1, left), " "), op), " ");
    GenExprWrites(g2, right);
    Regroup7(g.out, "(", ExprText(left), " ", op, " ", ExprText(right), ")");
  }

  /** `GenExprWrites` for a unary operation. */
  lemma {:induction false} UnaryWrites(g: Gen, op: string, operand: Expr)
    ensures GenExpr(g, UnaryOperation(op, operand))
         == Gen(g.out + ExprText(UnaryOperation(op, operand)), ScanExpr(g.builtins, operand), g.level)
    decreases UnaryOperation(op, operand), 0
  {
    GenExprWrites(Write(Write(g, op), "("), operand);
    assert g.out + ExprText(UnaryOperation(op, operand)) == g.out + op + "(" + ExprText(operand) + ")";
  }

  /** `GenExprWrites` for a call. */
  lemma {:induction false} CallWrites(g: Gen, name: string, args: seq<Expr>)
    ensures GenExpr(g, FunctionCall(name, args))
         == Gen(g.out + ExprText(FunctionCall(name, args)), ScanArgs(if IsBuiltin(name) then AddBuiltin(g.builtins, name) else g.builtins, args, 0), g.level)
    decreases FunctionCall(name, args), 0
  {
    var callee :=
      if IsBuiltin(name) then Write(g.(builtins := AddBuiltin(g.builtins, name)), Translate(name))
      else Write(g, name);
    GenArgsWrites(Write(callee, "("), args, 0);
    Regroup4(g.out, Translate(name), "(", ArgsText(args, 0), ")");
  }

  /** The argument loop writes the arguments from the `i`-th on. */
  lemma {:induction false} GenArgsWrites(g: Gen, args: seq<Expr>, i: nat)
    requires i <= |args|
    ensures GenArgs(g, args, i) == Gen(g.out + ArgsText(args, i), ScanArgs(g.builtins, args, i), g.level)
    decreases args, |args| - i
  {
    if i < |args| {
      var g1 := if i > 0 then Write(g, ", ") else g;
      GenExprWrites(g1, args[i]);
      GenArgsWrites(GenExpr(g1, args[i]), args, i + 1);
      if i > 0 {
        Regroup3(g.out, ", ", ExprText(args[i]), ArgsText(args, i + 1));
      } else {
        Regroup2(g.out, ExprText(args[i]), ArgsText(args, i + 1));
      }
    }
  }

  /** One more parameter of a declaration's list: a `, ` unless it is the
      first, then the C type and the name. */
  lemma ParamsTextStep(params: seq<Param>, i: nat)
    requires i < |params|
    ensures i == 0 ==> ParamsText(params[..i + 1], true) == TypeToCType(params[i].ty) + " " + params[i].name
    ensures i > 0 ==>
      ParamsText(params[..i + 1], true) == ParamsText(params[..i], true) + ", " + TypeToCType(params[i].ty) + " " + params[i].name
  {
    var q := params[..i + 1];
    assert q[|q| - 1] == params[i];
    if i > 0 {
      assert q[..|q| - 1] == params[..i];
    }
  }

  /** The parameter loop, from the `i`-th parameter on, when the output so
      far ends with the list of the parameters before it. */
  lemma {:induction false} GenParamsWrites(g: Gen, params: seq<Param>, i: nat, base: string)
    requires i <= |params| && g.out == base + ParamsText(params[..i], true)
    ensures GenParams(g, params, i) == g.(out := base + ParamsText(params, true))
    decreases |params| - i
  {
    if i == |params| {
      assert params[..i] == params;
    } else {
      var g1 := if i > 0 then Write(g, ", ") else g;
      ParamsTextStep(params, i);
      var next := Write(Write(Write(g1, TypeToCType(params[i].ty)), " "), params[i].name);
      if i > 0 {
        Regroup5(base, ParamsText(params[..i], true), ", ", TypeToCType(params[i].ty), " ", params[i].name);
      } else {
        assert params[..i] == [];
        Regroup3(base, TypeToCType(params[i].ty), " ", params[i].name);
      }
      GenParamsWrites(next, params, i + 1, base);
    }
  }

  /** The whole parameter loop writes the parameter list. */
  lemma ParamListWrites(g: Gen, params: seq<Param>)
    ensures GenParams(g, params, 0) == g.(out := g.out + ParamsText(params, true))
  {
    assert params[..0] == [];
    GenParamsWrites(g, params, 0, g.out);
  }

  /** A statement emitter appends the statement's text at the current level,
      records what the pre-scan of the statement records, and leaves the
      level as it found it. */
  lemma {:induction false} GenStmtWrites(g: Gen, s: Stmt)
    requires g.level >= 0
    ensures GenStmt(g, s) == Gen(g.out + StmtText(s, g.level), ScanStmt(g.builtins, s), g.level)
    decreases s, 1
  {
    match s
    case VariableDeclaration(ty, name, init) => VariableWrites(g, ty, name, init);
    case Assignment(name, value) =>
      GenExprWrites(Write(Write(Pad(g), name), " = "), value);
      Regroup5(g.out, Margin(g.level), name, " = ", ExprText(value), ";");
    case ExpressionStatement(expr) =>
      GenExprWrites(Pad(g), expr);
    case ReturnStatement(result) => ReturnWrites(g, result);
    case Block(stmts) => GenBlockWrites(g, stmts, true);
    case IfStatement(cond, thenStmt, elseStmt) => IfWrites(g, cond, thenStmt, elseStmt);
    case WhileStatement(cond, loopBody) => WhileWrites(g, cond, loopBody);
    case FunctionDeclaration(ret, name, params, body) => FunctionWrites(g, ret, name, params, body);
    case ExternDeclaration(ret, name, params) =>
      ParamListWrites(Write(Write(Write(Write(Write(g, "extern "), TypeToCType(ret)), " "), name), "("), params);
      Regroup7(g.out, "extern ", TypeToCType(ret), " ", name, "(", ParamsText(params, true), ");");
    case ImportStatement(moduleName) =>
  }

  /** `generateVariableDeclaration` writes `VariableText`. */
  lemma {:induction false} VariableWrites(g: Gen, ty: Type, name: string, init: Option<Expr>)
    requires g.level >= 0
    ensures GenVariable(g, ty, name, init)
         == Gen(g.out + VariableText(ty, name, init, g.level), if init.Some? then ScanExpr(g.builtins, init.value) else g.builtins, g.level)
    decreases VariableDeclaration(ty, name, init), 0
  {
    var head := Write(Write(Write(Pad(g), TypeToCType(ty)), " "), name);
    if init.Some? {
      GenExprWrites(Write(head, " = "), init.value);
      Regroup7(g.out, Margin(g.level), TypeToCType(ty), " ", name, " = ", ExprText(init.value), ";");
    } else {
      Regroup5(g.out, Margin(g.level), TypeToCType(ty), " ", name, ";");
    }
  }

  /** `generateReturnStatement` writes `ReturnText`. */
  lemma {:induction false} ReturnWrites(g: Gen, result: Option<Expr>)
    requires g.level >= 0
    ensures GenReturn(g, result)
         == Gen(g.out + ReturnText(result, g.level), if result.Some? then ScanExpr(g.builtins, result.value) else g.builtins, g.level)
    decreases ReturnStatement(result), 0
  {
    if result.Some? {
      GenExprWrites(Write(Write(Pad(g), "return"), " "), result.value);
      Regroup5(g.out, Margin(g.level), "return", " ", ExprText(result.value), ";");
    } else {
      Regroup3(g.out, Margin(g.level), "return", ";");
    }
  }

  /** The head of an `if` or a `while`: the margin, the keyword and its
      parenthesis, the condition, then `) `. */
  lemma {:induction false} ConditionWrites(g: Gen, keyword: string, cond: Expr)
    requires g.level >= 0
    ensures Write(GenExpr(Write(Pad(g), keyword), cond), ") ")
         == Gen(g.out + Margin(g.level) + keyword + ExprText(cond) + ") ", ScanExpr(g.builtins, cond), g.level)
    decreases cond, 2
  {
    GenExprWrites(Write(Pad(g), keyword), cond);
  }

  /** `generateIfStatement` writes `IfText`. */
  lemma {:induction false} IfWrites(g: Gen, cond: Expr, thenStmt: Stmt, elseStmt: Option<Stmt>)
    requires g.level >= 0
    ensures GenIf(g, cond, thenStmt, elseStmt)
         == Gen(g.out + IfText(cond, thenStmt, elseStmt, g.level),
                if elseStmt.Some? then ScanStmt(ScanStmt(ScanExpr(g.builtins, cond), thenStmt), elseStmt.value)
                else ScanStmt(ScanExpr(g.builtins, cond), thenStmt), g.level)
    decreases IfStatement(cond, thenStmt, elseStmt), 0
  {
    var level: nat := g.level;
    var g2 := Write(GenExpr(Write(Pad(g), "if ("), cond), ") ");
    ConditionWrites(g, "if (", cond);
    GenBranchWrites(g2, thenStmt);
    var afterThen := GenBranch(g2, thenStmt);
    var afterThenText := Margin(level) + "if (" + ExprText(cond) + ") " + BranchText(thenStmt, level);
    Regroup5(g.out, Margin(level), "if (", ExprText(cond), ") ", BranchText(thenStmt, level));
    assert afterThen == Gen(g.out + afterThenText, ScanStmt(ScanExpr(g.builtins, cond), thenStmt), level);
    if elseStmt.Some? {
      GenBranchWrites(Write(afterThen, " else "), elseStmt.value);
      Regroup3(g.out, afterThenText, " else ", BranchText(elseStmt.value, level));
    }
  }

  /** `generateWhileStatement` writes `WhileText`. */
  lemma {:induction false} WhileWrites(g: Gen, cond: Expr, loopBody: Stmt)
    requires g.level >= 0
    ensures GenWhile(g, cond, loopBody)
         == Gen(g.out + WhileText(cond, loopBody, g.level), ScanStmt(ScanExpr(g.builtins, cond), loopBody), g.level)
    decreases WhileStatement(cond, loopBody), 0
  {
    ConditionWrites(g, "while (", cond);
    GenBranchWrites(Write(GenExpr(Write(Pad(g), "while ("), cond), ") "), loopBody);
    Regroup5(g.out, Margin(g.level), "while (", ExprText(cond), ") ", BranchText(loopBody, g.level));
  }

  /** The signature of a function declaration: type, name and parameter
      list, then `) `. */
  lemma SignatureWrites(g: Gen, ret: Type, name: string, params: seq<Param>)
    ensures Write(GenParams(Write(Write(Write(Write(g, TypeToCType(ret)), " "), name), "("), params, 0), ") ")
         == g.(out := g.out + (TypeToCType(ret) + " " + name + "(" + ParamsText(params, true) + ") "))
  {
    ParamListWrites(Write(Write(Write(Write(g, TypeToCType(ret)), " "), name), "("), params);
    Regroup6(g.out, TypeToCType(ret), " ", name, "(", ParamsText(params, true), ") ");
  }

  /** A function body: its statements one level deeper between braces, the
      closing one without a margin. */
  lemma {:induction false} BodyWrites(g: Gen, stmts: seq<Stmt>)
    requires g.level >= 0
    ensures Write(Leave(GenBlock(Enter(Write(g, "{\n")), stmts, false)), "}")
         == Gen(g.out + "{\n" + StmtsText(stmts, g.level + 1, 0) + "}", ScanStmts(g.builtins, stmts, 0), g.level)
    decreases stmts, 2
  {
    GenBlockWrites(Enter(Write(g, "{\n")), stmts, false);
  }

  /** `generateFunctionDeclaration` writes `FunctionText`. */
  lemma {:induction false} FunctionWrites(g: Gen, ret: Type, name: string, params: seq<Param>, body: Option<Body>)
    requires g.level >= 0
    ensures GenFunction(g, ret, name, params, body)
         == Gen(g.out + FunctionText(ret, name, params, body, g.level),
                if body.Some? then ScanStmts(g.builtins, body.value.stmts, 0) else g.builtins, g.level)
    decreases FunctionDeclaration(ret, name, params, body), 0
  {
    var head := Write(GenParams(Write(Write(Write(Write(g, TypeToCType(ret)), " "), name), "("), params, 0), ") ");
    var signature := TypeToCType(ret) + " " + name + "(" + ParamsText(params, true) + ") ";
    SignatureWrites(g, ret, name, params);
    assert head == Gen(g.out + signature, g.builtins, g.level);
    if body.Some? {
      BodyWrites(head, body.value.stmts);
      Regroup4(g.out, signature, "{\n", StmtsText(body.value.stmts, g.level + 1, 0), "}");
    } else {
      Regroup2(g.out, signature, ";");
    }
  }

  /** `GenStmtWrites` for a branch after its `) `. */
  lemma {:induction false} GenBranchWrites(g: Gen, s: Stmt)
    requires g.level >= 0
    ensures GenBranch(g, s) == Gen(g.out + BranchText(s, g.level), ScanStmt(g.builtins, s), g.level)
    decreases s, 4
  {
    if s.Block? {
      BlockBranchWrites(g, s.stmts);
    } else {
      PlainBranchWrites(g, s);
    }
  }

  /** A block branch keeps its braces on the branch's line and closes at the
      branch's own margin. */
  lemma {:induction false} BlockBranchWrites(g: Gen, stmts: seq<Stmt>)
    requires g.level >= 0
    ensures GenBranch(g, Block(stmts)) == Gen(g.out + BranchText(Block(stmts), g.level), ScanStmts(g.builtins, stmts, 0), g.level)
    decreases Block(stmts), 1
  {
    GenBlockWrites(Enter(Write(g, "{\n")), stmts, false);
    Regroup4(g.out, "{\n", StmtsText(stmts, g.level + 1, 0), Margin(g.level), "}");
  }

  /** Any other branch goes on a line of its own, one level deeper. */
  lemma {:induction false} PlainBranchWrites(g: Gen, s: Stmt)
    requires g.level >= 0 && !s.Block?
    ensures GenBranch(g, s) == Gen(g.out + BranchText(s, g.level), ScanStmt(g.builtins, s), g.level)
    decreases s, 3
  {
    NextLineWrites(g, s);
    Regroup2(g.out, "\n", StmtText(s, g.level + 1));
  }

  /** A statement emitted after a line break, one level deeper. */
  lemma {:induction false} NextLineWrites(g: Gen, s: Stmt)
    requires g.level >= 0
    ensures GenStmt(Enter(Write(g, "\n")), s)
         == Gen(g.out + "\n" + StmtText(s, g.level + 1), ScanStmt(g.builtins, s), g.level + 1)
    decreases s, 2
  {
    GenStmtWrites(Enter(Write(g, "\n")), s);
  }

  /** `generateBlock` appends each statement's text and a line break, inside
      braces at the current level when asked for them. */
  lemma {:induction false} GenBlockWrites(g: Gen, stmts: seq<Stmt>, addBraces: bool)
    requires g.level >= 0
    ensures GenBlock(g, stmts, addBraces)
         == Gen(g.out + (if addBraces then Margin(g.level) + "{\n" + StmtsText(stmts, g.level + 1, 0) + Margin(g.level) + "}"
                         else StmtsText(stmts, g.level, 0)),
                ScanStmts(g.builtins, stmts, 0), g.level)
    decreases stmts, 1
  {
    var start := if addBraces then Enter(Write(Pad(g), "{\n")) else g;
    GenStmtsWrites(start, stmts, 0);
    if addBraces {
      Regroup5(g.out, Margin(g.level), "{\n", StmtsText(stmts, g.level + 1, 0), Margin(g.level), "}");
    }
  }

  /** The statement loop writes the statements from the `i`-th on. */
  lemma {:induction false} GenStmtsWrites(g: Gen, stmts: seq<Stmt>, i: nat)
    requires i <= |stmts| && g.level >= 0
    ensures GenStmts(g, stmts, i) == Gen(g.out + StmtsText(stmts, g.level, i), ScanStmts(g.builtins, stmts, i), g.level)
    decreases stmts, 0, |stmts| - i
  {
    if i < |stmts| {
      GenStmtWrites(g, stmts[i]);
      var next := Write(GenStmt(g, stmts[i]), "\n");
      GenStmtsWrites(next, stmts, i + 1);
      Regroup3(g.out, StmtText(stmts[i], g.level), "\n", StmtsText(stmts, g.level, i + 1));
    }
  }

  /** `generate` writes the includes, the helpers of exactly the builtins
      the program uses, and every top-level statement followed by a line
      break. */
  lemma GenerateWritesProgramText(p: Program)
    ensures Generate(p) == ProgramText(p)
  {
    PreScanFindsBuiltinsUsed(p);
    var scanned := Gen("", ScanStmts({}, p.stmts, 0), 0);
    var head := Write(Write(scanned, Includes()), Helpers(scanned.builtins));
    assert head.out == Includes() + Helpers(BuiltinsUsed(p)) by {
      assert "" + Includes() == Includes();
    }
    GenStmtsWrites(head, p.stmts, 0);
  }

  // ---------------------------------------------------------------------
  // The shape of the emitted text

  /** The arguments of a call, each as its own expression text, with `, `
      between neighbours. */
  lemma ArgsTextJoins(args: seq<Expr>, parts: seq<string>)
    requires |parts| == |args|
    requires forall k :: 0 <= k < |args| ==> parts[k] == ExprText(args[k])
    ensures ArgsText(args, 0) == Join(parts, ", ")
  {
    if |args| > 0 {
      ArgsTailJoins(args, parts, 1);
      if |args| > 1 {
        assert ExprText(args[0]) + (", " + Join(parts[1..], ", ")) == parts[0] + ", " + Join(parts[1..], ", ");
      }
    }
  }

  /** `ArgsTextJoins` from the `i`-th argument on, past the first. */
  lemma {:induction false} ArgsTailJoins(args: seq<Expr>, parts: seq<string>, i: nat)
    requires |parts| == |args| && 0 < i <= |args|
    requires forall k :: 0 <= k < |args| ==> parts[k] == ExprText(args[k])
    ensures ArgsText(args, i) == if i == |args| then "" else ", " + Join(parts[i..], ", ")
    decreases |args| - i
  {
    if i < |args| {
      ArgsTailJoins(args, parts, i + 1);
      var rest := parts[i..];
      assert rest[0] == parts[i] && rest[1..] == parts[i + 1..];
      if i + 1 < |args| {
        assert ", " + ExprText(args[i]) + (", " + Join(parts[i + 1..], ", "))
            == ", " + (parts[i] + ", " + Join(parts[i + 1..], ", "));
      }
    }
  }

  /** The statements of a list, each as its own statement text and each
      followed by a line break. */
  lemma {:induction false} StmtsTextTerminated(stmts: seq<Stmt>, parts: seq<string>, level: nat, i: nat)
    requires |parts| == |stmts| && i <= |stmts|
    requires forall k :: 0 <= k < |stmts| ==> parts[k] == StmtText(stmts[k], level)
    ensures StmtsText(stmts, level, i) == Terminated(parts[i..], "\n")
    decreases |stmts| - i
  {
    if i < |stmts| {
      StmtsTextTerminated(stmts, parts, level, i + 1);
      var rest := parts[i..];
      assert rest[0] == parts[i] && rest[1..] == parts[i + 1..];
    }
  }

  /** The order of the output: the includes, then the helpers of exactly the
      builtins used, then each top-level statement at level zero with a line
      break after it. */
  lemma GenerateLayout(p: Program, parts: seq<string>)
    requires |parts| == |p.stmts|
    requires forall k :: 0 <= k < |p.stmts| ==> parts[k] == StmtText(p.stmts[k], 0)
    ensures Generate(p) == Includes() + Helpers(BuiltinsUsed(p)) + Terminated(parts, "\n")
  {
    GenerateWritesProgramText(p);
    StmtsTextTerminated(p.stmts, parts, 0, 0);
    assert parts[0..] == parts;
  }

  /** The output always opens with the includes. */
  lemma GenerateStartsWithIncludes(p: Program)
    ensures Includes() <= Generate(p)
  {
    GenerateWritesProgramText(p);
    LeadsOf3(Includes(), Helpers(BuiltinsUsed(p)), StmtsText(p.stmts, 0, 0));
  }

  /** Every builtin the program calls, wherever the call stands, has its
      helper defined ahead of the program's own statements, under the name
      the call is translated to. */
  lemma CalledBuiltinDefined(p: Program, name: string)
    requires name in StmtsCallNames(p.stmts) && IsBuiltin(name)
    ensures Includes() + Helpers(BuiltinsUsed(p)) <= Generate(p)
    ensures Translate(name) == HelperName(Key(name))
    ensures Key(name) == PRINTLN ==> PrintlnDefinition() <= Helpers(BuiltinsUsed(p))
    ensures Key(name) == PRINT ==> EndsWith(Helpers(BuiltinsUsed(p)), PrintDefinition())
  {
    GenerateWritesProgramText(p);
    assert Key(name) in BuiltinsUsed(p);
    HelpersPresentIffRecorded(BuiltinsUsed(p));
  }

  /** Every statement other than a function or extern declaration starts
      with the margin of its level. */
  lemma StmtTextStartsAtMargin(s: Stmt, level: nat)
    requires !s.FunctionDeclaration? && !s.ExternDeclaration?
    ensures Margin(level) <= StmtText(s, level)
  {
    var m := Margin(level);
    match s
    case VariableDeclaration(ty, name, init) => VariableStartsAtMargin(ty, name, init, level);
    case ReturnStatement(result) => ReturnStartsAtMargin(result, level);
    case IfStatement(cond, thenStmt, elseStmt) => IfStartsAtMargin(cond, thenStmt, elseStmt, level);
    case WhileStatement(cond, loopBody) =>
      LeadsOf5(m, "while (", ExprText(cond), ") ", BranchText(loopBody, level));
    case Assignment(name, value) =>
      LeadsOf5(m, name, " = ", ExprText(value), ";");
    case ExpressionStatement(expr) =>
      LeadsOf3(m, ExprText(expr), ";");
    case Block(stmts) =>
      LeadsOf5(m, "{\n", StmtsText(stmts, level + 1, 0), m, "}");
    case ImportStatement(moduleName) =>
      PrefixOfAppend(m, "// Import: " + moduleName);
  }

  /** The first of three pieces begins their concatenation. */
  lemma LeadsOf3(a: string, b: string, c: string)
    ensures a <= a + b + c
  {
    assert (a + b + c)[..|a|] == a;
  }

  /** The first of five pieces begins their concatenation. */
  lemma LeadsOf5(a: string, b: string, c: string, d: string, e: string)
    ensures a <= a + b + c + d + e
  {
    assert (a + b + c + d + e)[..|a|] == a;
  }

  /** `StmtTextStartsAtMargin` for a variable declaration. */
  lemma VariableStartsAtMargin(ty: Type, name: string, init: Option<Expr>, level: nat)
    ensures Margin(level) <= VariableText(ty, name, init, level)
  {
    var m := Margin(level);
    var head := m + TypeToCType(ty) + " " + name;
    PrefixOfAppend(m, TypeToCType(ty) + " " + name);
    assert m + (TypeToCType(ty) + " " + name) == head;
    if init.Some? {
      var full := head + " = " + ExprText(init.value);
      PrefixOfAppend(head, " = " + ExprText(init.value));
      assert head + (" = " + ExprText(init.value)) == full;
      PrefixOfAppend(full, ";");
    } else {
      PrefixOfAppend(head, ";");
    }
  }

  /** `StmtTextStartsAtMargin` for a return statement. */
  lemma ReturnStartsAtMargin(result: Option<Expr>, level: nat)
    ensures Margin(level) <= ReturnText(result, level)
  {
    var m := Margin(level);
    var head := m + "return";
    PrefixOfAppend(m, "return");
    if result.Some? {
      var full := head + " " + ExprText(result.value);
      PrefixOfAppend(head, " " + ExprText(result.value));
      assert head + (" " + ExprText(result.value)) == full;
      PrefixOfAppend(full, ";");
    } else {
      PrefixOfAppend(head, ";");
    }
  }

  /** `StmtTextStartsAtMargin` for an `if` statement. */
  lemma IfStartsAtMargin(cond: Expr, thenStmt: Stmt, elseStmt: Option<Stmt>, level: nat)
    ensures Margin(level) <= IfText(cond, thenStmt, elseStmt, level)
  {
    var m := Margin(level);
    var rest := "if (" + ExprText(cond) + ") " + BranchText(thenStmt, level);
    var afterThen := m + "if (" + ExprText(cond) + ") " + BranchText(thenStmt, level);
    assert afterThen == m + rest;
    PrefixOfAppend(m, rest);
    if elseStmt.Some? {
      PrefixOfAppend(afterThen, " else " + BranchText(elseStmt.value, level));
    }
  }

  /** A string is a prefix of itself followed by anything. */
  lemma PrefixOfAppend(a: string, b: string)
    ensures a <= a + b
  {
    assert (a + b)[..|a|] == a;
  }

  // ---------------------------------------------------------------------
  // Parentheses

  /** A piece of text without parentheses. */
  predicate ParenFree(s: string) {
    '(' !in s && ')' !in s
  }

  /** Every literal, name, operator and translated callee in `e` lowers to
      text without parentheses. */
  predicate PlainLeaves(e: Expr)
    decreases e, 1
  {
    match e
    case NumberLiteral(text) => ParenFree(text)
    case StringLiteral(value) => ParenFree(Literal(value))
    case BoolLiteral(_) => true
    case Identifier(name) => ParenFree(name)
    case BinaryOperation(left, op, right) => ParenFree(op) && PlainLeaves(left) && PlainLeaves(right)
    case UnaryOperation(op, operand) => ParenFree(op) && PlainLeaves(operand)
    case FunctionCall(name, args) => ParenFree(Translate(name)) && PlainArgs(args, 0)
  }

  /** `PlainLeaves` for every argument from the `i`-th on. */
  predicate PlainArgs(args: seq<Expr>, i: nat)
    requires i <= |args|
    decreases args, |args| - i
  {
    i == |args| || (PlainLeaves(args[i]) && PlainArgs(args, i + 1))
  }

  /** The number of operator nodes of an expression: binary operations,
      unary operations and calls. */
  function Operators(e: Expr): nat
    decreases e, 1
  {
    match e
    case BinaryOperation(left, _, right) => 1 + Operators(left) + Operators(right)
    case UnaryOperation(_, operand) => 1 + Operators(operand)
    case FunctionCall(_, args) => 1 + ArgsOperators(args, 0)
    case _ => 0
  }

  /** `Operators` summed over the arguments from the `i`-th on. */
  function ArgsOperators(args: seq<Expr>, i: nat): nat
    requires i <= |args|
    decreases args, |args| - i
  {
    if i == |args| then 0 else Operators(args[i]) + ArgsOperators(args, i + 1)
  }

  /** Counting a character over a concatenation of three pieces. */
  lemma CountOf3(a: string, b: string, c: string, ch: char)
    ensures CountChar(a + b + c, ch) == CountChar(a, ch) + CountChar(b, ch) + CountChar(c, ch)
  {
    CountCharAppend(a, b, ch);
    CountCharAppend(a + b, c, ch);
  }

  /** Counting a character over a concatenation of four pieces. */
  lemma CountOf4(a: string, b: string, c: string, d: string, ch: char)
    ensures CountChar(a + b + c + d, ch) == CountChar(a, ch) + CountChar(b, ch) + CountChar(c, ch) + CountChar(d, ch)
  {
    CountOf3(a, b, c, ch);
    CountCharAppend(a + b + c, d, ch);
  }

  /** The counts of both parentheses in the two one-character pieces. */
  lemma ParenCounts()
    ensures CountChar("(", '(') == 1 && CountChar("(", ')') == 0
    ensures CountChar(")", '(') == 0 && CountChar(")", ')') == 1
  {
    assert "("[1..] == [] && ")"[1..] == [];
  }

  /** The text of an expression has one `(` and one `)` per operator node
      and no others: each binary operation, each unary operand and each
      argument list is wrapped in exactly one pair. */
  lemma {:induction false} ParensPerOperator(e: Expr)
    requires PlainLeaves(e)
    ensures CountChar(ExprText(e), '(') == Operators(e)
    ensures CountChar(ExprText(e), ')') == Operators(e)
    decreases e, 1
  {
    match e
    case NumberLiteral(text) =>
      CountZeroIffAbsent(text, '(');
      CountZeroIffAbsent(text, ')');
    case StringLiteral(value) =>
      CountZeroIffAbsent(Literal(value), '(');
      CountZeroIffAbsent(Literal(value), ')');
    case BoolLiteral(truth) =>
    case Identifier(name) =>
      CountZeroIffAbsent(name, '(');
      CountZeroIffAbsent(name, ')');
    case BinaryOperation(left, op, right) => BinaryParens(left, op, right);
    case UnaryOperation(op, operand) => UnaryParens(op, operand);
    case FunctionCall(name, args) => CallParens(name, args);
  }

  /** `ParensPerOperator` for a binary operation: one pair around the
      whole. */
  lemma {:induction false} BinaryParens(left: Expr, op: string, right: Expr)
    requires PlainLeaves(BinaryOperation(left, op, right))
    ensures CountChar(ExprText(BinaryOperation(left, op, right)), '(') == Operators(BinaryOperation(left, op, right))
    ensures CountChar(ExprText(BinaryOperation(left, op, right)), ')') == Operators(BinaryOperation(left, op, right))
    decreases BinaryOperation(left, op, right), 0
  {
    CountZeroIffAbsent(op, '(');
    CountZeroIffAbsent(op, ')');
    ParensPerOperator(left);
    ParensPerOperator(right);
    var l, r := ExprText(left), ExprText(right);
    var head := "(" + l + " " + op;
    ParenCounts();
    CountOf4("(", l, " ", op, '(');
    CountOf4("(", l, " ", op, ')');
    CountOf4(head, " ", r, ")", '(');
    CountOf4(head, " ", r, ")", ')');
  }

  /** `ParensPerOperator` for a unary operation: one pair around the
      operand. */
  lemma {:induction false} UnaryParens(op: string, operand: Expr)
    requires PlainLeaves(UnaryOperation(op, operand))
    ensures CountChar(ExprText(UnaryOperation(op, operand)), '(') == Operators(UnaryOperation(op, operand))
    ensures CountChar(ExprText(UnaryOperation(op, operand)), ')') == Operators(UnaryOperation(op, operand))
    decreases UnaryOperation(op, operand), 0
  {
    CountZeroIffAbsent(op, '(');
    CountZeroIffAbsent(op, ')');
    ParensPerOperator(operand);
    ParenCounts();
    CountOf4(op, "(", ExprText(operand), ")", '(');
    CountOf4(op, "(", ExprText(operand), ")", ')');
  }

  /** `ParensPerOperator` for a call: one pair around the arguments. */
  lemma {:induction false} CallParens(name: string, args: seq<Expr>)
    requires PlainLeaves(FunctionCall(name, args))
    ensures CountChar(ExprText(FunctionCall(name, args)), '(') == Operators(FunctionCall(name, args))
    ensures CountChar(ExprText(FunctionCall(name, args)), ')') == Operators(FunctionCall(name, args))
    decreases FunctionCall(name, args), 0
  {
    CountZeroIffAbsent(Translate(name), '(');
    CountZeroIffAbsent(Translate(name), ')');
    ArgsParens(args, 0);
    ParenCounts();
    CountOf4(Translate(name), "(", ArgsText(args, 0), ")", '(');
    CountOf4(Translate(name), "(", ArgsText(args, 0), ")", ')');
  }

  /** `ParensPerOperator` for the argument list from the `i`-th on. */
  lemma {:induction false} ArgsParens(args: seq<Expr>, i: nat)
    requires i <= |args| && PlainArgs(args, i)
    ensures CountChar(ArgsText(args, i), '(') == ArgsOperators(args, i)
    ensures CountChar(ArgsText(args, i), ')') == ArgsOperators(args, i)
    decreases args, |args| - i
  {
    if i < |args| {
      ParensPerOperator(args[i]);
      ArgsParens(args, i + 1);
      if i == 0 {
        CountCharAppend(ExprText(args[i]), ArgsText(args, i + 1), '(');
        CountCharAppend(ExprText(args[i]), ArgsText(args, i + 1), ')');
      } else {
        CountOf3(", ", ExprText(args[i]), ArgsText(args, i + 1), '(');
        CountOf3(", ", ExprText(args[i]), ArgsText(args, i + 1), ')');
      }
    }
  }
}
