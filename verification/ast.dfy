/** The syntax tree (`AST.cpp`): value types, expression and statement
    nodes, the program root, the append-only child lists and the indented
    `toString` dump. A `unique_ptr` child that may be null is an `Option`;
    the class hierarchy is two datatypes. */
module Ast {
  import opened Common
  import opened Layout

  /** The language's value types. */
  datatype Type = INT | FLOAT | STRING | BOOL | VOID | VOID_PTR | UNKNOWN

  /** Expression nodes. Operators are kept as the text the parser stored. */
  datatype Expr =
    | NumberLiteral(text: string)
    | StringLiteral(value: string)
    | BoolLiteral(truth: bool)
    | Identifier(name: string)
    | BinaryOperation(left: Expr, op: string, right: Expr)
    | UnaryOperation(op: string, operand: Expr)
    | FunctionCall(name: string, args: seq<Expr>)

  /** A declared parameter: its type and name. */
  datatype Param = Param(ty: Type, name: string)

  /** Statement nodes. */
  datatype Stmt =
    | VariableDeclaration(ty: Type, name: string, init: Option<Expr>)
    | Assignment(name: string, value: Expr)
    | ExpressionStatement(expr: Expr)
    | ReturnStatement(result: Option<Expr>)
    | ImportStatement(moduleName: string)
    | ExternDeclaration(ret: Type, name: string, params: seq<Param>)
    | Block(stmts: seq<Stmt>)
    | IfStatement(cond: Expr, thenStmt: Stmt, elseStmt: Option<Stmt>)
    | WhileStatement(cond: Expr, loopBody: Stmt)
    | FunctionDeclaration(ret: Type, name: string, params: seq<Param>, body: Option<Body>)

  /** A function's body: the block `setBody` attaches. */
  datatype Body = Body(stmts: seq<Stmt>)

  /** The root: the top-level statements in source order. */
  datatype Program = Program(stmts: seq<Stmt>)

  // ---------------------------------------------------------------------
  // Types

  /** `typeToString`: the language's own spelling of each type. */
  function TypeToString(t: Type): (r: string)
    ensures |r| >= 3 && '\n' !in r
  {
    match t
    case INT => "int"
    case FLOAT => "float"
    case STRING => "string"
    case BOOL => "bool"
    case VOID => "void"
    case VOID_PTR => "void*"
    case UNKNOWN => "unknown"
  }

  /** Reads a type back from its spelling, by length and first letter. */
  function TypeOfString(s: string): Option<Type> {
    if |s| == 3 && s[0] == 'i' then Some(INT)
    else if |s| == 4 && s[0] == 'b' then Some(BOOL)
    else if |s| == 4 && s[0] == 'v' then Some(VOID)
    else if |s| == 5 && s[0] == 'f' then Some(FLOAT)
    else if |s| == 5 && s[0] == 'v' then Some(VOID_PTR)
    else if |s| == 6 && s[0] == 's' then Some(STRING)
    else if |s| == 7 && s[0] == 'u' then Some(UNKNOWN)
    else None
  }

  /** `TypeOfString` undoes `TypeToString`, so no two types share a spelling. */
  lemma TypeToStringInjective(a: Type, b: Type)
    ensures TypeOfString(TypeToString(a)) == Some(a)
    ensures TypeToString(a) == TypeToString(b) ==> a == b
  {
    assert TypeOfString(TypeToString(b)) == Some(b);
  }

  /** The C spellings `typeToCType` can produce. */
  predicate IsCType(s: string) {
    s == "int" || s == "float" || s == "char*" || s == "void" || s == "void*"
  }

  /** `typeToCType`: the C type each language type lowers to. Strings become
      `char*`, `bool` becomes `int`, and `unknown` becomes `void`. */
  function TypeToCType(t: Type): (r: string)
    ensures IsCType(r) && '\n' !in r
    ensures t == STRING <==> r == "char*"
    ensures t == VOID_PTR <==> r == "void*"
    ensures t == FLOAT <==> r == "float"
    ensures r == "int" <==> t == INT || t == BOOL
    ensures r == "void" <==> t == VOID || t == UNKNOWN
  {
    match t
    case INT => "int"
    case FLOAT => "float"
    case STRING => "char*"
    case BOOL => "int"
    case VOID => "void"
    case VOID_PTR => "void*"
    case UNKNOWN => "void"
  }

  /** Lowering to C agrees with the language's spelling except on `string`,
      `bool` and `unknown`. */
  lemma CTypeAgreesWithSpelling(t: Type)
    ensures TypeToCType(t) == TypeToString(t) <==> t != STRING && t != BOOL && t != UNKNOWN
  {
  }

  // ---------------------------------------------------------------------
  // Literal types

  /** The type the literal constructors record: a number is `FLOAT` when its
      text has a `.` and `INT` otherwise; strings are `STRING` and booleans
      `BOOL`. Other expressions get no type from their constructors. */
  function LiteralType(e: Expr): (r: Option<Type>)
    ensures r.Some? <==> e.NumberLiteral? || e.StringLiteral? || e.BoolLiteral?
    ensures e.NumberLiteral? ==> (r == Some(FLOAT) <==> '.' in e.text)
    ensures e.NumberLiteral? ==> (r == Some(INT) <==> '.' !in e.text)
    ensures e.StringLiteral? ==> r == Some(STRING)
    ensures e.BoolLiteral? ==> r == Some(BOOL)
  {
    match e
    case NumberLiteral(text) => Some(if HasDot(text) then FLOAT else INT)
    case StringLiteral(_) => Some(STRING)
    case BoolLiteral(_) => Some(BOOL)
    case _ => None
  }

  /** `value.find('.') != npos`, as a scan from the front. */
  function HasDot(s: string): (r: bool)
    ensures r <==> '.' in s
  {
    if s == [] then false else s[0] == '.' || HasDot(s[1..])
  }

  // ---------------------------------------------------------------------
  // Building nodes: the append-only child lists

  /** `Program::addStatement` and `Block::addStatement`. */
  function AddStatement(stmts: seq<Stmt>, s: Stmt): (r: seq<Stmt>)
    ensures |r| == |stmts| + 1 && r[..|stmts|] == stmts && r[|stmts|] == s
  {
    stmts + [s]
  }

  /** `FunctionCall::addArgument`: the call with `arg` appended to its arguments. */
  function AddArgument(call: Expr, arg: Expr): (r: Expr)
    requires call.FunctionCall?
    ensures r.FunctionCall? && r.name == call.name
    ensures |r.args| == |call.args| + 1 && r.args[..|call.args|] == call.args
    ensures r.args[|call.args|] == arg
  {
    call.(args := call.args + [arg])
  }

  /** `ExternDeclaration::addParameter` and `FunctionDeclaration::addParameter`,
      on the declaration's parameter list. */
  function AddParameter(params: seq<Param>, ty: Type, name: string): (r: seq<Param>)
    ensures |r| == |params| + 1 && r[..|params|] == params && r[|params|] == Param(ty, name)
  {
    params + [Param(ty, name)]
  }

  /** `FunctionDeclaration::setBody`: replaces the body and nothing else. */
  function SetBody(decl: Stmt, body: seq<Stmt>): (r: Stmt)
    requires decl.FunctionDeclaration?
    ensures r.FunctionDeclaration? && r.body == Some(Body(body))
    ensures r.ret == decl.ret && r.name == decl.name && r.params == decl.params
  {
    decl.(body := Some(Body(body)))
  }

  // ---------------------------------------------------------------------
  // The indented dump (`toString`)

  /** `getIndent`: two blanks per level. */
  function Indent(level: nat): (r: string)
    ensures |r| == 2 * level
    ensures forall i :: 0 <= i < |r| ==> r[i] == ' '
  {
    Spaces(2 * level)
  }

  /** `BoolLiteral::toString`'s rendering of the value. */
  function BoolText(b: bool): string {
    if b then "true" else "false"
  }

  /** `toString` of an expression node at `indent`. */
  function ExprDump(e: Expr, indent: nat): string
    decreases e, 1
  {
    match e
    case NumberLiteral(text) =>
      Indent(indent) + "NumberLiteral: " + text + " (" + TypeToString(LiteralType(e).value) + ")"
    case StringLiteral(value) => Indent(indent) + "StringLiteral: \"" + value + "\""
    case BoolLiteral(truth) => Indent(indent) + "BoolLiteral: " + BoolText(truth)
    case Identifier(name) => Indent(indent) + "Identifier: " + name
    case BinaryOperation(left, op, right) =>
      Indent(indent) + "BinaryOperation: " + op + "\n"
      + ExprDump(left, indent + 1) + "\n"
      + ExprDump(right, indent + 1)
    case UnaryOperation(op, operand) =>
      Indent(indent) + "UnaryOperation: " + op + "\n" + ExprDump(operand, indent + 1)
    case FunctionCall(name, args) =>
      Indent(indent) + "FunctionCall: " + name + "\n" + ArgsDump(args, indent + 1)
  }

  /** Each argument at `indent`, each followed by a newline. */
  function ArgsDump(args: seq<Expr>, indent: nat): string
    decreases args, 0
  {
    if args == [] then "" else ExprDump(args[0], indent) + "\n" + ArgsDump(args[1..], indent)
  }

  /** The parameter list of a declaration, `, `-separated, each as its type
      (rendered by `typeName`) and name. */
  function ParamsText(params: seq<Param>, cTypes: bool): string {
    if params == [] then ""
    else
      var p := params[|params| - 1];
      var one := (if cTypes then TypeToCType(p.ty) else TypeToString(p.ty)) + " " + p.name;
      if |params| == 1 then one else ParamsText(params[..|params| - 1], cTypes) + ", " + one
  }

  /** `toString` of a statement node at `indent`, one function per node class. */
  function StmtDump(s: Stmt, indent: nat): string
    decreases s, 1
  {
    match s
    case VariableDeclaration(ty, name, init) => VariableDump(ty, name, init, indent)
    case Assignment(name, value) => AssignmentDump(name, value, indent)
    case ExpressionStatement(expr) => Labelled(indent, "ExpressionStatement:", ExprDump(expr, indent + 1))
    case ReturnStatement(result) => ReturnDump(result, indent)
    case ImportStatement(moduleName) => Indent(indent) + "ImportStatement: " + moduleName
    case ExternDeclaration(ret, name, params) => ExternDump(ret, name, params, indent)
    case Block(stmts) => BlockDump(stmts, indent)
    case IfStatement(cond, thenStmt, elseStmt) => IfDump(cond, thenStmt, elseStmt, indent)
    case WhileStatement(cond, loopBody) => WhileDump(cond, loopBody, indent)
    case FunctionDeclaration(ret, name, params, body) => FunctionDump(ret, name, params, body, indent)
  }

  /** `VariableDeclaration::toString`: the initializer, when present, one level deeper. */
  function VariableDump(ty: Type, name: string, init: Option<Expr>, indent: nat): string {
    Indent(indent) + "VariableDeclaration: " + TypeToString(ty) + " " + name
    + (if init.Some? then "\n" + ExprDump(init.value, indent + 1) else "")
  }

  /** `Assignment::toString`. */
  function AssignmentDump(name: string, value: Expr, indent: nat): string {
    Indent(indent) + "Assignment: " + name + "\n" + ExprDump(value, indent + 1)
  }

  /** `ReturnStatement::toString`: a bare `return` has no colon. */
  function ReturnDump(result: Option<Expr>, indent: nat): string {
    Indent(indent) + "ReturnStatement"
    + (if result.Some? then ":\n" + ExprDump(result.value, indent + 1) else "")
  }

  /** `ExternDeclaration::toString`, which spells the types in C. */
  function ExternDump(ret: Type, name: string, params: seq<Param>, indent: nat): string {
    Indent(indent) + "ExternDeclaration: " + TypeToCType(ret) + " " + name + "(" + ParamsText(params, true) + ");"
  }

  /** `IfStatement::toString`. */
  function IfDump(cond: Expr, thenStmt: Stmt, elseStmt: Option<Stmt>, indent: nat): string
    decreases IfStatement(cond, thenStmt, elseStmt), 0
  {
    match elseStmt
    case None =>
      Labelled(indent, "IfStatement:",
        IfSections(indent + 1, ExprDump(cond, indent + 2), StmtDump(thenStmt, indent + 2), None))
    case Some(e) =>
      Labelled(indent, "IfStatement:",
        IfSections(indent + 1, ExprDump(cond, indent + 2), StmtDump(thenStmt, indent + 2), Some(StmtDump(e, indent + 2))))
  }

  /** `WhileStatement::toString`. */
  function WhileDump(cond: Expr, loopBody: Stmt, indent: nat): string
    decreases WhileStatement(cond, loopBody), 0
  {
    Labelled(indent, "WhileStatement:", WhileSections(indent + 1, ExprDump(cond, indent + 2), StmtDump(loopBody, indent + 2)))
  }

  /** `FunctionDeclaration::toString`: the signature line in the language's
      own type names, then the body block one level deeper. */
  function FunctionDump(ret: Type, name: string, params: seq<Param>, body: Option<Body>, indent: nat): string
    decreases FunctionDeclaration(ret, name, params, body), 0
  {
    var signature := Indent(indent) + "FunctionDeclaration: " + TypeToString(ret) + " " + name + "(" + ParamsText(params, false) + ")\n";
    match body
    case None => signature
    case Some(b) => signature + BlockDump(b.stmts, indent + 1)
  }

  /** A titled section of the dump: `title` on its own line at `level`,
      then the dump of what it introduces. */
  function Labelled(level: nat, title: string, child: string): string {
    Indent(level) + title + "\n" + child
  }

  /** `Block::toString`: the header, then each statement one level deeper,
      each followed by a newline. */
  function BlockDump(stmts: seq<Stmt>, indent: nat): string
    decreases stmts, 1
  {
    Labelled(indent, "Block:", StmtsDump(stmts, indent + 1))
  }

  /** Each statement at `indent`, each followed by a newline. */
  function StmtsDump(stmts: seq<Stmt>, indent: nat): string
    decreases stmts, 0
  {
    if stmts == [] then "" else StmtDump(stmts[0], indent) + "\n" + StmtsDump(stmts[1..], indent)
  }

  /** `Program::toString`. */
  function ProgramDump(p: Program, indent: nat): string {
    Labelled(indent, "Program:", StmtsDump(p.stmts, indent + 1))
  }

  // ---------------------------------------------------------------------
  // Indentation of the dump (see `Layout`)

  /** No text stored in the expression holds a line break, so each node's
      header stays on one line. */
  predicate FlatExpr(e: Expr) {
    match e
    case NumberLiteral(text) => '\n' !in text
    case StringLiteral(value) => '\n' !in value
    case BoolLiteral(_) => true
    case Identifier(name) => '\n' !in name
    case BinaryOperation(left, op, right) => '\n' !in op && FlatExpr(left) && FlatExpr(right)
    case UnaryOperation(op, operand) => '\n' !in op && FlatExpr(operand)
    case FunctionCall(name, args) => '\n' !in name && forall a :: a in args ==> FlatExpr(a)
  }

  /** No parameter name holds a line break. */
  predicate FlatParams(params: seq<Param>) {
    forall p :: p in params ==> '\n' !in p.name
  }

  /** The statement counterpart of `FlatExpr`. */
  predicate FlatStmt(s: Stmt) {
    match s
    case VariableDeclaration(_, name, init) => '\n' !in name && (init.Some? ==> FlatExpr(init.value))
    case Assignment(name, value) => '\n' !in name && FlatExpr(value)
    case ExpressionStatement(expr) => FlatExpr(expr)
    case ReturnStatement(result) => result.Some? ==> FlatExpr(result.value)
    case ImportStatement(moduleName) => '\n' !in moduleName
    case ExternDeclaration(_, name, params) => '\n' !in name && FlatParams(params)
    case Block(stmts) => forall t :: t in stmts ==> FlatStmt(t)
    case IfStatement(cond, thenStmt, elseStmt) =>
      FlatExpr(cond) && FlatStmt(thenStmt) && (elseStmt.Some? ==> FlatStmt(elseStmt.value))
    case WhileStatement(cond, loopBody) => FlatExpr(cond) && FlatStmt(loopBody)
    case FunctionDeclaration(_, name, params, None) => '\n' !in name && FlatParams(params)
    case FunctionDeclaration(_, name, params, Some(body)) =>
      '\n' !in name && FlatParams(params) && forall t :: t in body.stmts ==> FlatStmt(t)
  }

  /** The titles of the two compound statements with sections. */
  predicate IsSectionedTitle(t: string) {
    t == "IfStatement:" || t == "WhileStatement:"
  }

  /** Both titles are non-empty text on one line. */
  lemma TitleIsOneLine(t: string)
    requires IsSectionedTitle(t)
    ensures '\n' !in t && |t| > 0
  {
  }

  /** A header line: the indentation of `level` and then text without a line break. */
  lemma IndentedHeader(level: nat, text: string)
    requires '\n' !in text && |text| > 0
    ensures Indented(Indent(level) + text, 2 * level) && OpenLine(Indent(level) + text)
  {
    BlankHeader(2 * level, text);
  }

  /** The four leaf expressions dump to one indented header line. */
  lemma LeafIndented(e: Expr, level: nat)
    requires FlatExpr(e)
    requires e.NumberLiteral? || e.StringLiteral? || e.BoolLiteral? || e.Identifier?
    ensures Indented(ExprDump(e, level), 2 * level)
  {
    var n := 2 * level;
    match e
    case NumberLiteral(text) =>
      var h := Indent(level) + "NumberLiteral: ";
      IndentedHeader(level, "NumberLiteral: ");
      IndentedExtend(h, text, n);
      IndentedExtend(h + text, " (", n);
      IndentedExtend(h + text + " (", TypeToString(LiteralType(e).value), n);
      IndentedExtend(h + text + " (" + TypeToString(LiteralType(e).value), ")", n);
    case StringLiteral(value) =>
      var h := Indent(level) + "StringLiteral: \"";
      IndentedHeader(level, "StringLiteral: \"");
      IndentedExtend(h, value, n);
      IndentedExtend(h + value, "\"", n);
    case BoolLiteral(truth) =>
      IndentedHeader(level, "BoolLiteral: ");
      IndentedExtend(Indent(level) + "BoolLiteral: ", BoolText(truth), n);
    case Identifier(name) =>
      IndentedHeader(level, "Identifier: ");
      IndentedExtend(Indent(level) + "Identifier: ", name, n);
  }

  /** A header line `Indent(level) + title + text` ended by a line break. */
  lemma HeaderLineIndented(level: nat, title: string, text: string)
    requires '\n' !in title && |title| > 0 && '\n' !in text
    ensures Indented(Indent(level) + title + text + "\n", 2 * level)
  {
    IndentedHeader(level, title);
    IndentedExtend(Indent(level) + title, text, 2 * level);
    IndentedEndLine(Indent(level) + title + text, "\n", 2 * level);
  }

  /** A binary node is indented when its operands' dumps one level deeper are. */
  lemma BinaryIndented(left: Expr, op: string, right: Expr, level: nat)
    requires '\n' !in op
    requires Indented(ExprDump(left, level + 1), 2 * level)
    requires Indented(ExprDump(right, level + 1), 2 * level)
    ensures Indented(ExprDump(BinaryOperation(left, op, right), level), 2 * level)
  {
    var n := 2 * level;
    var h := Indent(level) + "BinaryOperation: " + op + "\n";
    HeaderLineIndented(level, "BinaryOperation: ", op);
    IndentedAppend(h, ExprDump(left, level + 1), n);
    IndentedAppend(h + ExprDump(left, level + 1), "\n", n);
    IndentedAppend(h + ExprDump(left, level + 1) + "\n", ExprDump(right, level + 1), n);
  }

  /** A unary node is indented when its operand's dump one level deeper is. */
  lemma UnaryIndented(op: string, operand: Expr, level: nat)
    requires '\n' !in op
    requires Indented(ExprDump(operand, level + 1), 2 * level)
    ensures Indented(ExprDump(UnaryOperation(op, operand), level), 2 * level)
  {
    HeaderLineIndented(level, "UnaryOperation: ", op);
    IndentedAppend(Indent(level) + "UnaryOperation: " + op + "\n", ExprDump(operand, level + 1), 2 * level);
  }

  /** A call node is indented when its argument dumps one level deeper are. */
  lemma CallIndented(name: string, args: seq<Expr>, level: nat)
    requires '\n' !in name
    requires Indented(ArgsDump(args, level + 1), 2 * level)
    ensures Indented(ExprDump(FunctionCall(name, args), level), 2 * level)
  {
    HeaderLineIndented(level, "FunctionCall: ", name);
    IndentedAppend(Indent(level) + "FunctionCall: " + name + "\n", ArgsDump(args, level + 1), 2 * level);
  }

  /** Every line of an expression's dump at `level` is indented by at least
      `2 * level` blanks: the header sits at `level` and each child deeper. */
  lemma {:induction false} ExprDumpIndented(e: Expr, level: nat)
    requires FlatExpr(e)
    ensures Indented(ExprDump(e, level), 2 * level)
    decreases e, 1
  {
    match e
    case BinaryOperation(left, op, right) =>
      ChildDumpIndented(left, level);
      ChildDumpIndented(right, level);
      BinaryIndented(left, op, right, level);
    case UnaryOperation(op, operand) =>
      ChildDumpIndented(operand, level);
      UnaryIndented(op, operand, level);
    case FunctionCall(name, args) =>
      ArgsDumpIndented(args, level + 1);
      IndentedWeaken(ArgsDump(args, level + 1), 2 * (level + 1), 2 * level);
      CallIndented(name, args, level);
    case _ =>
      LeafIndented(e, level);
  }

  /** A child's dump one level deeper keeps the indentation of `level`. */
  lemma {:induction false} ChildDumpIndented(e: Expr, level: nat)
    requires FlatExpr(e)
    ensures Indented(ExprDump(e, level + 1), 2 * level)
    decreases e, 2
  {
    ExprDumpIndented(e, level + 1);
    IndentedWeaken(ExprDump(e, level + 1), 2 * (level + 1), 2 * level);
  }

  /** The argument dumps keep the indentation of `level`. */
  lemma {:induction false} ArgsDumpIndented(args: seq<Expr>, level: nat)
    requires forall a :: a in args ==> FlatExpr(a)
    ensures Indented(ArgsDump(args, level), 2 * level)
    decreases args, 0
  {
    if args != [] {
      ExprDumpIndented(args[0], level);
      NewlineIndented(2 * level);
      IndentedAppend(ExprDump(args[0], level), "\n", 2 * level);
      ArgsDumpIndented(args[1..], level);
      IndentedAppend(ExprDump(args[0], level) + "\n", ArgsDump(args[1..], level), 2 * level);
    }
  }

  /** A titled section is indented when what it introduces is. */
  lemma LabelledIndented(level: nat, title: string, body: string, n: nat)
    requires '\n' !in title && |title| > 0
    requires n <= 2 * level && Indented(body, n)
    ensures Indented(Labelled(level, title, body), n)
  {
    IndentedHeader(level, title);
    IndentedWeaken(Indent(level) + title, 2 * level, n);
    NewlineIndented(n);
    IndentedAppend(Indent(level) + title, "\n", n);
    IndentedAppend(Indent(level) + title + "\n", body, n);
  }

  /** A parameter list of names without line breaks has none. */
  lemma {:induction false} ParamsTextFlat(params: seq<Param>, cTypes: bool)
    requires FlatParams(params)
    ensures '\n' !in ParamsText(params, cTypes)
  {
    if |params| > 1 {
      ParamsTextFlat(params[..|params| - 1], cTypes);
    }
  }

  /** A declaration header: `title`, the type, a blank and the name, on one line. */
  lemma DeclHeaderIndented(level: nat, title: string, ty: string, name: string)
    requires '\n' !in title && |title| > 0 && '\n' !in ty && '\n' !in name
    ensures Indented(Indent(level) + title + ty + " " + name, 2 * level)
    ensures OpenLine(Indent(level) + title + ty + " " + name)
  {
    var n := 2 * level;
    IndentedHeader(level, title);
    IndentedExtend(Indent(level) + title, ty, n);
    IndentedExtend(Indent(level) + title + ty, " ", n);
    IndentedExtend(Indent(level) + title + ty + " ", name, n);
  }

  /** A variable declaration, with or without its initializer. */
  lemma VariableIndented(ty: Type, name: string, init: Option<Expr>, level: nat)
    requires '\n' !in name
    requires init.Some? ==> Indented(ExprDump(init.value, level + 1), 2 * level)
    ensures Indented(VariableDump(ty, name, init, level), 2 * level)
  {
    var h := Indent(level) + "VariableDeclaration: " + TypeToString(ty) + " " + name;
    DeclHeaderIndented(level, "VariableDeclaration: ", TypeToString(ty), name);
    if init.Some? {
      IndentedEndLine(h, "\n", 2 * level);
      IndentedJoin(h, "\n", ExprDump(init.value, level + 1), 2 * level);
    } else {
      assert h + "" == h;
    }
  }

  /** A return statement, with or without its value. */
  lemma ReturnIndented(result: Option<Expr>, level: nat)
    requires result.Some? ==> Indented(ExprDump(result.value, level + 1), 2 * level)
    ensures Indented(ReturnDump(result, level), 2 * level)
  {
    var h := Indent(level) + "ReturnStatement";
    IndentedHeader(level, "ReturnStatement");
    if result.Some? {
      IndentedEndLine(h, ":\n", 2 * level);
      IndentedJoin(h, ":\n", ExprDump(result.value, level + 1), 2 * level);
    } else {
      assert h + "" == h;
    }
  }

  /** An extern declaration is one header line. */
  lemma ExternIndented(ret: Type, name: string, params: seq<Param>, level: nat)
    requires '\n' !in name && FlatParams(params)
    ensures Indented(ExternDump(ret, name, params, level), 2 * level)
  {
    var n := 2 * level;
    var h := Indent(level) + "ExternDeclaration: " + TypeToCType(ret) + " " + name;
    DeclHeaderIndented(level, "ExternDeclaration: ", TypeToCType(ret), name);
    ParamsTextFlat(params, true);
    IndentedExtend(h, "(", n);
    IndentedExtend(h + "(", ParamsText(params, true), n);
    IndentedExtend(h + "(" + ParamsText(params, true), ");", n);
  }

  /** A function declaration: its signature line, then its block one level deeper. */
  lemma FunctionIndented(ret: Type, name: string, params: seq<Param>, body: Option<Body>, level: nat)
    requires '\n' !in name && FlatParams(params)
    requires body.Some? ==> Indented(BlockDump(body.value.stmts, level + 1), 2 * level)
    ensures Indented(FunctionDump(ret, name, params, body, level), 2 * level)
  {
    var n := 2 * level;
    var h := Indent(level) + "FunctionDeclaration: " + TypeToString(ret) + " " + name;
    DeclHeaderIndented(level, "FunctionDeclaration: ", TypeToString(ret), name);
    ParamsTextFlat(params, false);
    IndentedExtend(h, "(", n);
    IndentedExtend(h + "(", ParamsText(params, false), n);
    IndentedEndLine(h + "(" + ParamsText(params, false), ")\n", n);
    if body.Some? {
      IndentedAppend(h + "(" + ParamsText(params, false) + ")\n", BlockDump(body.value.stmts, level + 1), n);
    }
  }

  /** The body of an `if` dump: the labelled condition, branch and optional
      else-branch, given the dumps of the three children. */
  function IfSections(level: nat, cond: string, thenPart: string, elsePart: Option<string>): string {
    Labelled(level, "Condition:", cond) + "\n"
    + Labelled(level, "Then:", thenPart)
    + (if elsePart.Some? then "\n" + Labelled(level, "Else:", elsePart.value) else "")
  }

  /** The body of a `while` dump: the labelled condition and loop body. */
  function WhileSections(level: nat, cond: string, body: string): string {
    Labelled(level, "Condition:", cond) + "\n" + Labelled(level, "Body:", body)
  }

  /** The sections of an `if` dump keep the indentation of their children. */
  lemma IfSectionsIndented(level: nat, cond: string, thenPart: string, elsePart: Option<string>, n: nat)
    requires n <= 2 * level
    requires Indented(cond, n) && Indented(thenPart, n)
    requires elsePart.Some? ==> Indented(elsePart.value, n)
    ensures Indented(IfSections(level, cond, thenPart, elsePart), n)
  {
    var c := Labelled(level, "Condition:", cond);
    var t := Labelled(level, "Then:", thenPart);
    LabelledIndented(level, "Condition:", cond, n);
    LabelledIndented(level, "Then:", thenPart, n);
    SectionsIndented(c, t, n);
    if elsePart.Some? {
      LabelledIndented(level, "Else:", elsePart.value, n);
      OptionalSectionIndented(c + "\n" + t, Labelled(level, "Else:", elsePart.value), n);
    } else {
      assert c + "\n" + t + "" == c + "\n" + t;
    }
  }

  /** The sections of a `while` dump keep the indentation of their children. */
  lemma WhileSectionsIndented(level: nat, cond: string, body: string, n: nat)
    requires n <= 2 * level
    requires Indented(cond, n) && Indented(body, n)
    ensures Indented(WhileSections(level, cond, body), n)
  {
    LabelledIndented(level, "Condition:", cond, n);
    LabelledIndented(level, "Body:", body, n);
    SectionsIndented(Labelled(level, "Condition:", cond), Labelled(level, "Body:", body), n);
  }

  /** The one-line statements: assignment, expression statement, import. */
  lemma SimpleStmtIndented(s: Stmt, level: nat)
    requires s.Assignment? || s.ExpressionStatement? || s.ImportStatement?
    requires !s.ImportStatement? ==> Indented(ExprDump(if s.Assignment? then s.value else s.expr, level + 1), 2 * level)
    requires s.Assignment? ==> '\n' !in s.name
    requires s.ImportStatement? ==> '\n' !in s.moduleName
    ensures Indented(StmtDump(s, level), 2 * level)
  {
    match s
    case Assignment(name, value) =>
      HeaderLineIndented(level, "Assignment: ", name);
      IndentedAppend(Indent(level) + "Assignment: " + name + "\n", ExprDump(value, level + 1), 2 * level);
    case ExpressionStatement(expr) =>
      LabelledIndented(level, "ExpressionStatement:", ExprDump(expr, level + 1), 2 * level);
    case ImportStatement(moduleName) =>
      IndentedHeader(level, "ImportStatement: ");
      IndentedExtend(Indent(level) + "ImportStatement: ", moduleName, 2 * level);
  }

  /** Every line of a statement's dump at `level` is indented by at least
      `2 * level` blanks. */
  lemma {:induction false} StmtDumpIndented(s: Stmt, level: nat)
    requires FlatStmt(s)
    ensures Indented(StmtDump(s, level), 2 * level)
    decreases s, 3
  {
    match s
    case IfStatement(cond, thenStmt, elseStmt) =>
      IfIndented(cond, thenStmt, elseStmt, level);
    case WhileStatement(cond, loopBody) =>
      WhileIndented(cond, loopBody, level);
    case Block(stmts) =>
      BlockDumpIndented(stmts, level);
    case FunctionDeclaration(ret, name, params, body) =>
      if body.Some? {
        BlockDumpIndented(body.value.stmts, level + 1);
        IndentedWeaken(BlockDump(body.value.stmts, level + 1), 2 * (level + 1), 2 * level);
      }
      FunctionIndented(ret, name, params, body, level);
    case _ =>
      LineStmtIndented(s, level);
  }

  /** The statements whose children are expressions only. */
  lemma {:induction false} LineStmtIndented(s: Stmt, level: nat)
    requires FlatStmt(s)
    requires !s.IfStatement? && !s.WhileStatement? && !s.Block? && !s.FunctionDeclaration?
    ensures Indented(StmtDump(s, level), 2 * level)
  {
    var n := 2 * level;
    match s
    case VariableDeclaration(ty, name, init) =>
      if init.Some? {
        ExprDumpIndented(init.value, level + 1);
        IndentedWeaken(ExprDump(init.value, level + 1), 2 * (level + 1), n);
      }
      VariableIndented(ty, name, init, level);
    case Assignment(name, value) =>
      ExprDumpIndented(value, level + 1);
      IndentedWeaken(ExprDump(value, level + 1), 2 * (level + 1), n);
      SimpleStmtIndented(s, level);
    case ExpressionStatement(expr) =>
      ExprDumpIndented(expr, level + 1);
      IndentedWeaken(ExprDump(expr, level + 1), 2 * (level + 1), n);
      SimpleStmtIndented(s, level);
    case ReturnStatement(result) =>
      if result.Some? {
        ExprDumpIndented(result.value, level + 1);
        IndentedWeaken(ExprDump(result.value, level + 1), 2 * (level + 1), n);
      }
      ReturnIndented(result, level);
    case ImportStatement(_) =>
      SimpleStmtIndented(s, level);
    case ExternDeclaration(ret, name, params) =>
      ExternIndented(ret, name, params, level);
  }

  /** An `if` statement's dump, given its condition and branches indented. */
  lemma IfShapeIndented(cond: Expr, thenStmt: Stmt, elseStmt: Option<Stmt>, level: nat)
    requires Indented(ExprDump(cond, level + 2), 2 * level)
    requires Indented(StmtDump(thenStmt, level + 2), 2 * level)
    requires elseStmt.Some? ==> Indented(StmtDump(elseStmt.value, level + 2), 2 * level)
    ensures Indented(IfDump(cond, thenStmt, elseStmt, level), 2 * level)
  {
    var n := 2 * level;
    var c := ExprDump(cond, level + 2);
    var t := StmtDump(thenStmt, level + 2);
    TitleIsOneLine("IfStatement:");
    match elseStmt
    case Some(e) =>
      IfSectionsIndented(level + 1, c, t, Some(StmtDump(e, level + 2)), n);
      LabelledIndented(level, "IfStatement:", IfSections(level + 1, c, t, Some(StmtDump(e, level + 2))), n);
    case None =>
      IfSectionsIndented(level + 1, c, t, None, n);
      LabelledIndented(level, "IfStatement:", IfSections(level + 1, c, t, None), n);
  }

  /** An `if` statement: its title, then its sections one level deeper. */
  lemma {:induction false} IfIndented(cond: Expr, thenStmt: Stmt, elseStmt: Option<Stmt>, level: nat)
    requires FlatExpr(cond) && FlatStmt(thenStmt) && (elseStmt.Some? ==> FlatStmt(elseStmt.value))
    ensures Indented(IfDump(cond, thenStmt, elseStmt, level), 2 * level)
    decreases IfStatement(cond, thenStmt, elseStmt), 2
  {
    ExprDumpIndented(cond, level + 2);
    IndentedWeaken(ExprDump(cond, level + 2), 2 * (level + 2), 2 * level);
    StmtDumpIndented(thenStmt, level + 2);
    IndentedWeaken(StmtDump(thenStmt, level + 2), 2 * (level + 2), 2 * level);
    match elseStmt
    case Some(e) =>
      StmtDumpIndented(e, level + 2);
      IndentedWeaken(StmtDump(e, level + 2), 2 * (level + 2), 2 * level);
      IfShapeIndented(cond, thenStmt, elseStmt, level);
    case None =>
      IfShapeIndented(cond, thenStmt, elseStmt, level);
  }

  /** A `while` statement's dump, given its condition and body indented. */
  lemma WhileShapeIndented(cond: Expr, loopBody: Stmt, level: nat)
    requires Indented(ExprDump(cond, level + 2), 2 * level)
    requires Indented(StmtDump(loopBody, level + 2), 2 * level)
    ensures Indented(WhileDump(cond, loopBody, level), 2 * level)
  {
    var n := 2 * level;
    var c := ExprDump(cond, level + 2);
    var b := StmtDump(loopBody, level + 2);
    WhileSectionsIndented(level + 1, c, b, n);
    TitleIsOneLine("WhileStatement:");
    LabelledIndented(level, "WhileStatement:", WhileSections(level + 1, c, b), n);
  }

  /** A `while` statement: its title, then its sections one level deeper. */
  lemma {:induction false} WhileIndented(cond: Expr, loopBody: Stmt, level: nat)
    requires FlatExpr(cond) && FlatStmt(loopBody)
    ensures Indented(WhileDump(cond, loopBody, level), 2 * level)
    decreases WhileStatement(cond, loopBody), 2
  {
    ExprDumpIndented(cond, level + 2);
    IndentedWeaken(ExprDump(cond, level + 2), 2 * (level + 2), 2 * level);
    StmtDumpIndented(loopBody, level + 2);
    IndentedWeaken(StmtDump(loopBody, level + 2), 2 * (level + 2), 2 * level);
    WhileShapeIndented(cond, loopBody, level);
  }

  /** A block's dump at `level`: its title, then its statements deeper. */
  lemma {:induction false} BlockDumpIndented(stmts: seq<Stmt>, level: nat)
    requires forall t :: t in stmts ==> FlatStmt(t)
    ensures Indented(BlockDump(stmts, level), 2 * level)
    decreases stmts, 1
  {
    StmtsDumpIndented(stmts, level + 1);
    IndentedWeaken(StmtsDump(stmts, level + 1), 2 * (level + 1), 2 * level);
    LabelledIndented(level, "Block:", StmtsDump(stmts, level + 1), 2 * level);
  }

  /** A statement list's dump keeps the indentation of `level`. */
  lemma {:induction false} StmtsDumpIndented(stmts: seq<Stmt>, level: nat)
    requires forall t :: t in stmts ==> FlatStmt(t)
    ensures Indented(StmtsDump(stmts, level), 2 * level)
    decreases stmts, 0
  {
    if stmts != [] {
      StmtDumpIndented(stmts[0], level);
      NewlineIndented(2 * level);
      IndentedAppend(StmtDump(stmts[0], level), "\n", 2 * level);
      StmtsDumpIndented(stmts[1..], level);
      IndentedAppend(StmtDump(stmts[0], level) + "\n", StmtsDump(stmts[1..], level), 2 * level);
    }
  }

  /** The whole program's dump at `level`: its title, then each top-level
      statement one level deeper. */
  lemma ProgramDumpIndented(p: Program, level: nat)
    requires forall t :: t in p.stmts ==> FlatStmt(t)
    ensures Indented(ProgramDump(p, level), 2 * level)
  {
    StmtsDumpIndented(p.stmts, level + 1);
    IndentedWeaken(StmtsDump(p.stmts, level + 1), 2 * (level + 1), 2 * level);
    LabelledIndented(level, "Program:", StmtsDump(p.stmts, level + 1), 2 * level);
  }

  // ---------------------------------------------------------------------
  // Shape of the dump: header line, then the children in order

  /** The dumps of `exprs`, each at `level`, in order. */
  function ExprDumps(exprs: seq<Expr>, level: nat): seq<string> {
    seq(|exprs|, i requires 0 <= i < |exprs| => ExprDump(exprs[i], level))
  }

  /** The dumps of `stmts`, each at `level`, in order. */
  function StmtDumps(stmts: seq<Stmt>, level: nat): seq<string> {
    seq(|stmts|, i requires 0 <= i < |stmts| => StmtDump(stmts[i], level))
  }

  /** The children an expression node dumps below its header, in source order. */
  function ExprKids(e: Expr): seq<Expr> {
    match e
    case BinaryOperation(left, _, right) => [left, right]
    case UnaryOperation(_, operand) => [operand]
    case FunctionCall(_, args) => args
    case _ => []
  }

  /** What follows the indentation on the first line of an expression's dump:
      the node's class name, a colon and its own data. It starts with a
      visible character. */
  function ExprHeader(e: Expr): (r: string)
    ensures |r| > 0 && r[0] != ' ' && r[0] != '\n'
  {
    match e
    case NumberLiteral(text) => "NumberLiteral: " + text + " (" + TypeToString(LiteralType(e).value) + ")"
    case StringLiteral(value) => "StringLiteral: \"" + value + "\""
    case BoolLiteral(truth) => "BoolLiteral: " + BoolText(truth)
    case Identifier(name) => "Identifier: " + name
    case BinaryOperation(_, op, _) => "BinaryOperation: " + op
    case UnaryOperation(op, _) => "UnaryOperation: " + op
    case FunctionCall(name, _) => "FunctionCall: " + name
  }

  // Regroupings of a dump's text into header and sections, on plain strings.

  /** One part below a header. */
  lemma BelowOne(a: string)
    ensures Below([a]) == "\n" + a + ""
  {
    assert [a][1..] == [];
  }

  /** Two parts below a header. */
  lemma BelowTwo(a: string, b: string)
    ensures Below([a, b]) == "\n" + a + ("\n" + b + "")
  {
    assert [a, b][1..] == [b];
    BelowOne(b);
  }

  /** Three parts below a header. */
  lemma BelowThree(a: string, b: string, c: string)
    ensures Below([a, b, c]) == "\n" + a + ("\n" + b + ("\n" + c + ""))
  {
    assert [a, b, c][1..] == [b, c];
    BelowTwo(b, c);
  }

  /** A header of two pieces and nothing below. */
  lemma Flat2(i: string, a: string, b: string)
    ensures i + a + b == i + (a + b) + Below([]) + ""
  {
  }

  /** A header of three pieces and nothing below. */
  lemma Flat3(i: string, a: string, b: string, c: string)
    ensures i + a + b + c == i + (a + b + c) + Below([]) + ""
  {
  }

  /** A header of four pieces and nothing below. */
  lemma Flat4(i: string, a: string, b: string, c: string, d: string)
    ensures i + a + b + c + d == i + (a + b + c + d) + Below([]) + ""
  {
  }

  /** A header of five pieces and nothing below. */
  lemma Flat5(i: string, a: string, b: string, c: string, d: string, e: string)
    ensures i + a + b + c + d + e == i + (a + b + c + d + e) + Below([]) + ""
  {
  }

  /** A header of seven pieces and nothing below. */
  lemma Flat7(i: string, a: string, b: string, c: string, d: string, e: string, f: string, g: string)
    ensures i + a + b + c + d + e + f + g == i + (a + b + c + d + e + f + g) + Below([]) + ""
  {
  }

  /** A two-piece header and one part below. */
  lemma Shape1(i: string, h: string, x: string, o: string)
    ensures i + h + x + "\n" + o == i + (h + x) + Below([o]) + ""
  {
    BelowOne(o);
  }

  /** A two-piece header and two parts below. */
  lemma Shape2(i: string, h: string, x: string, l: string, r: string)
    ensures i + h + x + "\n" + l + "\n" + r == i + (h + x) + Below([l, r]) + ""
  {
    BelowTwo(l, r);
  }

  /** A two-piece header and a list each of whose parts ends in a line break. */
  lemma ShapeList(i: string, h: string, x: string, t: string, b: string)
    requires "\n" + t == b + "\n"
    ensures i + h + x + "\n" + t == i + (h + x) + b + "\n"
  {
    assert i + h + x + "\n" + t == i + (h + x) + ("\n" + t);
  }

  /** A title and one part below. */
  lemma TitledOne(i: string, t: string, o: string)
    ensures i + t + "\n" + o == i + t + Below([o]) + ""
  {
    BelowOne(o);
  }

  /** A title and a list each of whose parts ends in a line break. */
  lemma TitledList(i: string, t: string, s: string, b: string)
    requires "\n" + s == b + "\n"
    ensures i + t + "\n" + s == i + t + b + "\n"
  {
    assert i + t + "\n" + s == i + t + ("\n" + s);
  }

  /** A title and two sections, as `while` lays them out. */
  lemma TitledTwo(i: string, t: string, a: string, b: string)
    ensures i + t + "\n" + (a + "\n" + b) == i + t + Below([a, b]) + ""
  {
    BelowTwo(a, b);
  }

  /** A title and two sections, as `if` without `else` lays them out. */
  lemma TitledTwoOpt(i: string, t: string, a: string, b: string)
    ensures i + t + "\n" + (a + "\n" + b + "") == i + t + Below([a, b]) + ""
  {
    BelowTwo(a, b);
  }

  /** A title and three sections, as `if` with `else` lays them out. */
  lemma TitledThree(i: string, t: string, a: string, b: string, c: string)
    ensures i + t + "\n" + (a + "\n" + b + ("\n" + c)) == i + t + Below([a, b, c]) + ""
  {
    BelowThree(a, b, c);
  }

  /** A four-piece header with an optional part below. */
  lemma Shape4Opt(i: string, a: string, b: string, c: string, d: string, o: Option<string>)
    ensures i + a + b + c + d + (if o.Some? then "\n" + o.value else "")
         == i + (a + b + c + d) + Below(if o.Some? then [o.value] else []) + ""
  {
    if o.Some? {
      BelowOne(o.value);
    }
  }

  /** The return statement's header, with or without its value below. */
  lemma ReturnShape(i: string, o: Option<string>)
    ensures i + "ReturnStatement" + (if o.Some? then ":\n" + o.value else "")
         == i + (if o.Some? then "ReturnStatement:" else "ReturnStatement")
            + Below(if o.Some? then [o.value] else []) + ""
  {
    if o.Some? {
      BelowOne(o.value);
      assert "ReturnStatement:" == "ReturnStatement" + ":";
      assert ":\n" + o.value == ":" + ("\n" + o.value);
    }
  }

  /** The signature line of a function declaration: seven pieces, then the
      line break, then the body's block if there is one. */
  lemma SignatureShape(i: string, a: string, b: string, c: string, d: string, e: string, f: string, o: Option<string>)
    ensures i + a + b + c + d + e + f + ")\n" + (if o.Some? then o.value else "")
         == i + (a + b + c + d + e + f + ")") + Below(if o.Some? then [o.value] else [])
            + (if o.Some? then "" else "\n")
  {
    assert ")\n" == ")" + "\n";
    if o.Some? {
      BelowOne(o.value);
    }
  }

  // The shape lemmas themselves.

  /** A line break before the argument list's dump is a line break before
      each argument, and one at the end. */
  lemma {:induction false} ArgsBelow(args: seq<Expr>, level: nat)
    ensures "\n" + ArgsDump(args, level) == Below(ExprDumps(args, level)) + "\n"
    decreases |args|
  {
    if args != [] {
      var ds := ExprDumps(args, level);
      var a := ExprDump(args[0], level);
      var t := ArgsDump(args[1..], level);
      assert ds[0] == a;
      assert ds[1..] == ExprDumps(args[1..], level);
      ArgsBelow(args[1..], level);
      ListStep(a, t, Below(ds[1..]));
    }
  }

  /** One step of `ArgsBelow` and `StmtsBelow`, on plain strings. */
  lemma ListStep(a: string, t: string, b: string)
    requires "\n" + t == b + "\n"
    ensures "\n" + (a + "\n" + t) == "\n" + a + b + "\n"
  {
    assert "\n" + (a + "\n" + t) == "\n" + a + ("\n" + t);
  }

  /** The same for a statement list. */
  lemma {:induction false} StmtsBelow(stmts: seq<Stmt>, level: nat)
    ensures "\n" + StmtsDump(stmts, level) == Below(StmtDumps(stmts, level)) + "\n"
    decreases |stmts|
  {
    if stmts != [] {
      var ds := StmtDumps(stmts, level);
      var a := StmtDump(stmts[0], level);
      var t := StmtsDump(stmts[1..], level);
      assert ds[0] == a;
      assert ds[1..] == StmtDumps(stmts[1..], level);
      StmtsBelow(stmts[1..], level);
      ListStep(a, t, Below(ds[1..]));
    }
  }

  /** The shape of an expression's dump at `level`: a first line of exactly
      `2 * level` blanks and the node's header, then the dump of each child
      at `level + 1` on lines of its own, in source order; a call's dump
      ends with a line break after its last argument. */
  lemma ExprDumpLayout(e: Expr, level: nat)
    ensures ExprDump(e, level)
         == Indent(level) + ExprHeader(e) + Below(ExprDumps(ExprKids(e), level + 1))
            + (if e.FunctionCall? then "\n" else "")
  {
    match e
    case BinaryOperation(left, op, right) => BinaryLayout(left, op, right, level);
    case UnaryOperation(op, operand) => UnaryLayout(op, operand, level);
    case FunctionCall(name, args) => CallLayout(name, args, level);
    case _ => LeafLayout(e, level);
  }

  /** `ExprDumpLayout` for a binary node: both operands below the header. */
  lemma BinaryLayout(left: Expr, op: string, right: Expr, level: nat)
    ensures var e := BinaryOperation(left, op, right);
      ExprDump(e, level) == Indent(level) + ExprHeader(e) + Below(ExprDumps(ExprKids(e), level + 1)) + ""
  {
    var l := ExprDump(left, level + 1);
    var r := ExprDump(right, level + 1);
    assert ExprDumps([left, right], level + 1) == [l, r];
    Shape2(Indent(level), "BinaryOperation: ", op, l, r);
  }

  /** `ExprDumpLayout` for a unary node: the operand below the header. */
  lemma UnaryLayout(op: string, operand: Expr, level: nat)
    ensures var e := UnaryOperation(op, operand);
      ExprDump(e, level) == Indent(level) + ExprHeader(e) + Below(ExprDumps(ExprKids(e), level + 1)) + ""
  {
    var o := ExprDump(operand, level + 1);
    assert ExprDumps([operand], level + 1) == [o];
    Shape1(Indent(level), "UnaryOperation: ", op, o);
  }

  /** `ExprDumpLayout` for a call: the arguments below the header, and a
      final line break. */
  lemma CallLayout(name: string, args: seq<Expr>, level: nat)
    ensures var e := FunctionCall(name, args);
      ExprDump(e, level) == Indent(level) + ExprHeader(e) + Below(ExprDumps(ExprKids(e), level + 1)) + "\n"
  {
    ArgsBelow(args, level + 1);
    ShapeList(Indent(level), "FunctionCall: ", name, ArgsDump(args, level + 1), Below(ExprDumps(args, level + 1)));
  }

  /** `ExprDumpLayout` for the four leaves: the header line alone. */
  lemma LeafLayout(e: Expr, level: nat)
    requires e.NumberLiteral? || e.StringLiteral? || e.BoolLiteral? || e.Identifier?
    ensures ExprDump(e, level) == Indent(level) + ExprHeader(e) + Below(ExprDumps(ExprKids(e), level + 1)) + ""
  {
    var i := Indent(level);
    assert ExprDumps(ExprKids(e), level + 1) == [];
    match e
    case NumberLiteral(text) =>
      Flat5(i, "NumberLiteral: ", text, " (", TypeToString(LiteralType(e).value), ")");
    case StringLiteral(value) =>
      Flat3(i, "StringLiteral: \"", value, "\"");
    case BoolLiteral(truth) =>
      Flat2(i, "BoolLiteral: ", BoolText(truth));
    case Identifier(name) =>
      Flat2(i, "Identifier: ", name);
  }

  /** A flat expression's header holds no line break: the first line of its
      dump is the indentation and the header alone. */
  lemma ExprHeaderFlat(e: Expr)
    requires FlatExpr(e)
    ensures '\n' !in ExprHeader(e)
  {
    match e
    case NumberLiteral(text) =>
      NoBreak5("NumberLiteral: ", text, " (", TypeToString(LiteralType(e).value), ")");
    case StringLiteral(value) => NoBreak3("StringLiteral: \"", value, "\"");
    case BoolLiteral(truth) => NoBreak2("BoolLiteral: ", BoolText(truth));
    case Identifier(name) => NoBreak2("Identifier: ", name);
    case BinaryOperation(_, op, _) => NoBreak2("BinaryOperation: ", op);
    case UnaryOperation(op, _) => NoBreak2("UnaryOperation: ", op);
    case FunctionCall(name, _) => NoBreak2("FunctionCall: ", name);
  }

  /** Two pieces without a line break make none. */
  lemma NoBreak2(a: string, b: string)
    requires '\n' !in a && '\n' !in b
    ensures '\n' !in a + b
  {
  }

  /** Three pieces without a line break make none. */
  lemma NoBreak3(a: string, b: string, c: string)
    requires '\n' !in a && '\n' !in b && '\n' !in c
    ensures '\n' !in a + b + c
  {
  }

  /** Five pieces without a line break make none. */
  lemma NoBreak5(a: string, b: string, c: string, d: string, e: string)
    requires '\n' !in a && '\n' !in b && '\n' !in c && '\n' !in d && '\n' !in e
    ensures '\n' !in a + b + c + d + e
  {
  }

  /** A statement's header holds no line break when its names do not. */
  lemma StmtHeaderFlat(s: Stmt)
    requires FlatStmt(s)
    ensures '\n' !in StmtHeader(s)
  {
    match s
    case VariableDeclaration(ty, name, _) => NoBreak3("VariableDeclaration: ", TypeToString(ty), " " + name);
    case Assignment(name, _) => NoBreak2("Assignment: ", name);
    case ImportStatement(moduleName) => NoBreak2("ImportStatement: ", moduleName);
    case ExternDeclaration(ret, name, params) => SignatureFlat(s);
    case FunctionDeclaration(ret, name, params, _) => SignatureFlat(s);
    case _ =>
  }

  /** `StmtHeaderFlat` for the two declarations with a parameter list. */
  lemma SignatureFlat(s: Stmt)
    requires s.ExternDeclaration? || s.FunctionDeclaration?
    requires '\n' !in s.name && FlatParams(s.params)
    ensures '\n' !in StmtHeader(s)
  {
    if s.ExternDeclaration? {
      ParamsTextFlat(s.params, true);
      NoBreak5("ExternDeclaration: ", TypeToCType(s.ret), " ", s.name, "(" + ParamsText(s.params, true) + ");");
    } else {
      ParamsTextFlat(s.params, false);
      NoBreak5("FunctionDeclaration: ", TypeToString(s.ret), " ", s.name, "(" + ParamsText(s.params, false) + ")");
    }
  }

  /** The sections a statement node dumps below its header, in order, each
      at `level`: its expressions, its statements, or for `if` and `while`
      its labelled sections. */
  function StmtParts(s: Stmt, level: nat): seq<string> {
    match s
    case VariableDeclaration(_, _, init) => if init.Some? then [ExprDump(init.value, level)] else []
    case Assignment(_, value) => [ExprDump(value, level)]
    case ExpressionStatement(expr) => [ExprDump(expr, level)]
    case ReturnStatement(result) => if result.Some? then [ExprDump(result.value, level)] else []
    case ImportStatement(_) => []
    case ExternDeclaration(_, _, _) => []
    case Block(stmts) => StmtDumps(stmts, level)
    case IfStatement(cond, thenStmt, elseStmt) =>
      [Labelled(level, "Condition:", ExprDump(cond, level + 1)), Labelled(level, "Then:", StmtDump(thenStmt, level + 1))]
      + (if elseStmt.Some? then [Labelled(level, "Else:", StmtDump(elseStmt.value, level + 1))] else [])
    case WhileStatement(cond, loopBody) =>
      [Labelled(level, "Condition:", ExprDump(cond, level + 1)), Labelled(level, "Body:", StmtDump(loopBody, level + 1))]
    case FunctionDeclaration(_, _, _, body) => if body.Some? then [BlockDump(body.value.stmts, level)] else []
  }

  /** What follows the indentation on the first line of a statement's dump:
      the node's class name and its own data. */
  function StmtHeader(s: Stmt): (r: string)
    ensures |r| > 0 && r[0] != ' ' && r[0] != '\n'
  {
    match s
    case VariableDeclaration(ty, name, _) => "VariableDeclaration: " + TypeToString(ty) + " " + name
    case Assignment(name, _) => "Assignment: " + name
    case ExpressionStatement(_) => "ExpressionStatement:"
    case ReturnStatement(result) => if result.Some? then "ReturnStatement:" else "ReturnStatement"
    case ImportStatement(moduleName) => "ImportStatement: " + moduleName
    case ExternDeclaration(ret, name, params) =>
      "ExternDeclaration: " + TypeToCType(ret) + " " + name + "(" + ParamsText(params, true) + ");"
    case Block(_) => "Block:"
    case IfStatement(_, _, _) => "IfStatement:"
    case WhileStatement(_, _) => "WhileStatement:"
    case FunctionDeclaration(ret, name, params, _) =>
      "FunctionDeclaration: " + TypeToString(ret) + " " + name + "(" + ParamsText(params, false) + ")"
  }

  /** A block, and a function declaration without a body, end with a line break. */
  function StmtTrailer(s: Stmt): string {
    if s.Block? || (s.FunctionDeclaration? && s.body.None?) then "\n" else ""
  }

  /** The shape of a statement's dump at `level`: a first line of exactly
      `2 * level` blanks and the node's header, then each section at
      `level + 1` on lines of its own, in source order. */
  lemma StmtDumpLayout(s: Stmt, level: nat)
    ensures StmtDump(s, level)
         == Indent(level) + StmtHeader(s) + Below(StmtParts(s, level + 1)) + StmtTrailer(s)
  {
    match s
    case Block(stmts) => BlockLayout(stmts, level);
    case IfStatement(cond, thenStmt, elseStmt) => IfLayout(cond, thenStmt, elseStmt, level);
    case WhileStatement(cond, loopBody) => WhileLayout(cond, loopBody, level);
    case FunctionDeclaration(ret, name, params, body) => FunctionLayout(ret, name, params, body, level);
    case ExternDeclaration(ret, name, params) =>
      Flat7(Indent(level), "ExternDeclaration: ", TypeToCType(ret), " ", name, "(", ParamsText(params, true), ");");
    case _ => LineStmtLayout(s, level);
  }

  /** `StmtDumpLayout` for the statements whose sections are expressions. */
  lemma LineStmtLayout(s: Stmt, level: nat)
    requires !s.Block? && !s.IfStatement? && !s.WhileStatement? && !s.FunctionDeclaration? && !s.ExternDeclaration?
    ensures StmtDump(s, level)
         == Indent(level) + StmtHeader(s) + Below(StmtParts(s, level + 1)) + StmtTrailer(s)
  {
    var i := Indent(level);
    match s
    case VariableDeclaration(ty, name, init) =>
      var o := if init.Some? then Some(ExprDump(init.value, level + 1)) else None;
      Shape4Opt(i, "VariableDeclaration: ", TypeToString(ty), " ", name, o);
    case Assignment(name, value) =>
      Shape1(i, "Assignment: ", name, ExprDump(value, level + 1));
    case ExpressionStatement(expr) =>
      TitledOne(i, "ExpressionStatement:", ExprDump(expr, level + 1));
    case ReturnStatement(result) =>
      ReturnShape(i, if result.Some? then Some(ExprDump(result.value, level + 1)) else None);
    case ImportStatement(moduleName) =>
      Flat2(i, "ImportStatement: ", moduleName);
  }

  /** `StmtDumpLayout` for a block: the statements one level deeper, each
      on lines of its own, then a final line break. */
  lemma BlockLayout(stmts: seq<Stmt>, level: nat)
    ensures StmtDump(Block(stmts), level)
         == Indent(level) + "Block:" + Below(StmtDumps(stmts, level + 1)) + "\n"
  {
    StmtsBelow(stmts, level + 1);
    TitledList(Indent(level), "Block:", StmtsDump(stmts, level + 1), Below(StmtDumps(stmts, level + 1)));
  }

  /** `StmtDumpLayout` for an `if`: the labelled condition, branch and
      optional else-branch one level deeper. */
  lemma IfLayout(cond: Expr, thenStmt: Stmt, elseStmt: Option<Stmt>, level: nat)
    ensures var s := IfStatement(cond, thenStmt, elseStmt);
      StmtDump(s, level) == Indent(level) + StmtHeader(s) + Below(StmtParts(s, level + 1)) + StmtTrailer(s)
  {
    var s := IfStatement(cond, thenStmt, elseStmt);
    var c := Labelled(level + 1, "Condition:", ExprDump(cond, level + 2));
    var t := Labelled(level + 1, "Then:", StmtDump(thenStmt, level + 2));
    match elseStmt
    case Some(e) =>
      var x := Labelled(level + 1, "Else:", StmtDump(e, level + 2));
      assert StmtParts(s, level + 1) == [c, t, x];
      assert StmtDump(s, level) == Labelled(level, "IfStatement:", c + "\n" + t + ("\n" + x));
      TitledThree(Indent(level), "IfStatement:", c, t, x);
    case None =>
      assert StmtParts(s, level + 1) == [c, t];
      assert StmtDump(s, level) == Labelled(level, "IfStatement:", c + "\n" + t + "");
      TitledTwoOpt(Indent(level), "IfStatement:", c, t);
  }

  /** `StmtDumpLayout` for a `while`: the labelled condition and body one
      level deeper. */
  lemma WhileLayout(cond: Expr, loopBody: Stmt, level: nat)
    ensures var s := WhileStatement(cond, loopBody);
      StmtDump(s, level) == Indent(level) + StmtHeader(s) + Below(StmtParts(s, level + 1)) + StmtTrailer(s)
  {
    var s := WhileStatement(cond, loopBody);
    var c := Labelled(level + 1, "Condition:", ExprDump(cond, level + 2));
    var b := Labelled(level + 1, "Body:", StmtDump(loopBody, level + 2));
    assert StmtParts(s, level + 1) == [c, b];
    assert StmtDump(s, level) == Labelled(level, "WhileStatement:", c + "\n" + b);
    TitledTwo(Indent(level), "WhileStatement:", c, b);
  }

  /** `StmtDumpLayout` for a function declaration: the signature line, then
      the body's block one level deeper. */
  lemma FunctionLayout(ret: Type, name: string, params: seq<Param>, body: Option<Body>, level: nat)
    ensures var s := FunctionDeclaration(ret, name, params, body);
      StmtDump(s, level) == Indent(level) + StmtHeader(s) + Below(StmtParts(s, level + 1)) + StmtTrailer(s)
  {
    var o := if body.Some? then Some(BlockDump(body.value.stmts, level + 1)) else None;
    SignatureShape(Indent(level), "FunctionDeclaration: ", TypeToString(ret), " ", name, "(", ParamsText(params, false), o);
  }

  /** The shape of the program's dump at `level`: the title line, each
      top-level statement one level deeper on lines of its own, in source
      order, then a final line break. */
  lemma ProgramDumpLayout(p: Program, level: nat)
    ensures ProgramDump(p, level)
         == Indent(level) + "Program:" + Below(StmtDumps(p.stmts, level + 1)) + "\n"
  {
    StmtsBelow(p.stmts, level + 1);
    TitledList(Indent(level), "Program:", StmtsDump(p.stmts, level + 1), Below(StmtDumps(p.stmts, level + 1)));
  }
}
