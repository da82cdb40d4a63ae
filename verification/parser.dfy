/** The recursive-descent parser (`Parser.cpp`): a cursor over the token
    list, the expression ladder, the statement parsers and `parse` with its
    skip-to-`;` error recovery. A thrown `ParseError` is a `Failed` result
    that records where the cursor stood when it was thrown, since `parse`
    resumes from there. */
module Parser {
  import opened Common
  import opened Ast
  import Tokens

  type Token = Tokens.Token
  type Kind = Tokens.TokenType

  /** What a parse function returns: the node and the cursor after it, or the
      cursor at which `ParseError` was thrown. */
  datatype Res<+T> = Parsed(value: T, next: nat) | Failed(at: nat)

  /** A result reached from cursor `p`: success moved strictly forward,
      failure happened at or after `p`, and neither left the list. */
  predicate Forward<T>(toks: seq<Token>, p: nat, r: Res<T>) {
    match r
    case Parsed(_, q) => p < q <= |toks|
    case Failed(at) => p <= at <= |toks|
  }

  /** Like `Forward`, but success may stay put (loops that match nothing). */
  predicate Onward<T>(toks: seq<Token>, p: nat, r: Res<T>) {
    match r
    case Parsed(_, q) => p <= q <= |toks|
    case Failed(at) => p <= at <= |toks|
  }

  // ---------------------------------------------------------------------
  // The cursor

  /** The token `currentToken` and `peekToken` hand out past the end:
      `Token(EOF_TOKEN)` with the constructor's defaults. */
  const EofToken: Token := Tokens.Token(Tokens.EOF_TOKEN, "", 0, 0)

  /** `currentToken`: the token under the cursor, or the end token past the
      end of the list, so a list without `EOF_TOKEN` is read safely. */
  function CurrentToken(toks: seq<Token>, p: nat): (t: Token)
    ensures p < |toks| ==> t == toks[p]
    ensures |toks| <= p ==> t == EofToken
  {
    if p >= |toks| then EofToken else toks[p]
  }

  /** `peekToken`: the token `offset` places after the cursor, or the end token. */
  function PeekToken(toks: seq<Token>, p: nat, offset: nat): (t: Token)
    ensures p + offset < |toks| ==> t == toks[p + offset]
    ensures |toks| <= p + offset ==> t == EofToken
  {
    CurrentToken(toks, p + offset)
  }

  /** `advance`: one step forward, but never past the end of the list. */
  function Advance(toks: seq<Token>, p: nat): (r: nat)
    requires p <= |toks|
    ensures r <= |toks|
    ensures p < |toks| ==> r == p + 1
    ensures p == |toks| ==> r == p
  {
    if p < |toks| then p + 1 else p
  }

  /** `isAtEnd`: past the list, or on an `EOF_TOKEN`. */
  predicate IsAtEnd(toks: seq<Token>, p: nat) {
    p >= |toks| || toks[p].kind == Tokens.EOF_TOKEN
  }

  /** `check`: the token under the cursor has kind `k`; never true at the end. */
  predicate Check(toks: seq<Token>, p: nat, k: Kind) {
    !IsAtEnd(toks, p) && toks[p].kind == k
  }

  /** `match`: the cursor after trying to take one token of kind `k`. */
  function Match(toks: seq<Token>, p: nat, k: Kind): (r: nat)
    requires p <= |toks|
    ensures r == p + 1 <==> Check(toks, p, k)
    ensures r == p <==> !Check(toks, p, k)
  {
    if Check(toks, p, k) then Advance(toks, p) else p
  }

  /** `consume`: the token of kind `k` under the cursor and one step forward,
      or a failure at the unchanged cursor. */
  function Consume(toks: seq<Token>, p: nat, k: Kind): (r: Res<Token>)
    requires p <= |toks|
    ensures r.Parsed? <==> Check(toks, p, k)
    ensures r.Parsed? ==> r.value == toks[p] && r.next == p + 1 && r.value.kind == k
    ensures r.Failed? ==> r.at == p
  {
    if Check(toks, p, k) then Parsed(CurrentToken(toks, p), Advance(toks, p)) else Failed(p)
  }

  /** The five kinds that start a type. */
  predicate IsTypeKeyword(k: Kind) {
    k == Tokens.INT || k == Tokens.FLOAT || k == Tokens.STRING_KW || k == Tokens.BOOL || k == Tokens.VOID
  }

  /** `parseType`: a type keyword, and `void` followed by `*` for `void*`.
      The type's spelling is the text of the tokens taken. */
  function ParseType(toks: seq<Token>, p: nat): (r: Res<Type>)
    requires p <= |toks|
    ensures r.Parsed? <==> p < |toks| && !IsAtEnd(toks, p) && IsTypeKeyword(toks[p].kind)
    ensures r.Failed? ==> r.at == p
    ensures r.Parsed? && r.next == p + 1 ==> TypeToString(r.value) == Tokens.TokenName(toks[p].kind)
    ensures r.Parsed? && r.next != p + 1 ==>
              r.next == p + 2 && r.next <= |toks| && r.value == VOID_PTR && toks[p].kind == Tokens.VOID && toks[p + 1].kind == Tokens.MULTIPLY
    ensures r.Parsed? ==> r.value != UNKNOWN
  {
    if Check(toks, p, Tokens.INT) then Parsed(INT, p + 1)
    else if Check(toks, p, Tokens.FLOAT) then Parsed(FLOAT, p + 1)
    else if Check(toks, p, Tokens.STRING_KW) then Parsed(STRING, p + 1)
    else if Check(toks, p, Tokens.BOOL) then Parsed(BOOL, p + 1)
    else if Check(toks, p, Tokens.VOID) then
      var q := Match(toks, p + 1, Tokens.MULTIPLY);
      if q == p + 2 then Parsed(VOID_PTR, q) else Parsed(VOID, q)
    else Failed(p)
  }

  // ---------------------------------------------------------------------
  // Expressions: `expression` ... `primary`

  /** The operator kinds of binary level `k`: `logicalOr` (0), `logicalAnd`
      (1), `equality` (2), `comparison` (3), `term` (4) and `factor` (5). */
  predicate LevelOp(k: nat, t: Kind) {
    match k
    case 0 => t == Tokens.OR
    case 1 => t == Tokens.AND
    case 2 => t == Tokens.EQUAL || t == Tokens.NOT_EQUAL
    case 3 => t == Tokens.GREATER || t == Tokens.GREATER_EQUAL || t == Tokens.LESS || t == Tokens.LESS_EQUAL
    case 4 => t == Tokens.MINUS || t == Tokens.PLUS
    case _ => t == Tokens.DIVIDE || t == Tokens.MULTIPLY || t == Tokens.MODULO
  }

  /** The loop test of binary level `k`: one of its operators is under the cursor. */
  predicate CheckOp(toks: seq<Token>, p: nat, k: nat) {
    !IsAtEnd(toks, p) && LevelOp(k, toks[p].kind)
  }

  /** The operator text a binary level stores: `||` and `&&` are written
      literally, the other levels copy the matched token's text. */
  function OpText(toks: seq<Token>, p: nat, k: nat): string
    requires p < |toks|
  {
    if k == 0 then "||" else if k == 1 then "&&" else toks[p].value
  }

  /** `expression`: the lowest level, `logicalOr`. */
  function Expression(toks: seq<Token>, p: nat): (r: Res<Expr>)
    requires p <= |toks|
    ensures Forward(toks, p, r)
    decreases |toks| - p, 20
  {
    Binary(toks, p, 0)
  }

  /** Binary level `k` (level 6 is `unary`): an operand of level `k + 1`,
      then the loop that folds further operands in from the left. */
  function Binary(toks: seq<Token>, p: nat, k: nat): (r: Res<Expr>)
    requires p <= |toks| && k <= 6
    ensures Forward(toks, p, r)
    decreases |toks| - p, 4 + 2 * (6 - k)
  {
    if k == 6 then Unary(toks, p)
    else
      match Binary(toks, p, k + 1)
      case Failed(at) => Failed(at)
      case Parsed(left, q) => BinaryLoop(toks, left, q, k)
  }

  /** The `while (match(...))` loop of binary level `k`, with the expression
      built so far in `acc`: each operator and right operand wraps `acc` as
      the left child, so the level associates to the left. */
  function BinaryLoop(toks: seq<Token>, acc: Expr, p: nat, k: nat): (r: Res<Expr>)
    requires p <= |toks| && k < 6
    ensures Onward(toks, p, r)
    decreases |toks| - p, 3 + 2 * (6 - k)
  {
    if CheckOp(toks, p, k) then
      match Binary(toks, p + 1, k + 1)
      case Failed(at) => Failed(at)
      case Parsed(right, q) => BinaryLoop(toks, BinaryOperation(acc, OpText(toks, p, k), right), q, k)
    else Parsed(acc, p)
  }

  /** `unary`: `!` or `-` applied to a unary operand, nesting to the right;
      otherwise a call. */
  function Unary(toks: seq<Token>, p: nat): (r: Res<Expr>)
    requires p <= |toks|
    ensures Forward(toks, p, r)
    decreases |toks| - p, 3
  {
    if Check(toks, p, Tokens.NOT) || Check(toks, p, Tokens.MINUS) then
      match Unary(toks, p + 1)
      case Failed(at) => Failed(at)
      case Parsed(operand, q) => Parsed(UnaryOperation(toks[p].value, operand), q)
    else Call(toks, p)
  }

  /** `call`: a primary followed by argument lists. */
  function Call(toks: seq<Token>, p: nat): (r: Res<Expr>)
    requires p <= |toks|
    ensures Forward(toks, p, r)
    decreases |toks| - p, 2
  {
    match Primary(toks, p)
    case Failed(at) => Failed(at)
    case Parsed(e, q) => CallLoop(toks, e, q)
  }

  /** The loop of `call`: a `(` after an identifier starts a call with that
      name; after anything else it is an error, reported after the `(`. */
  function CallLoop(toks: seq<Token>, e: Expr, p: nat): (r: Res<Expr>)
    requires p <= |toks|
    ensures Onward(toks, p, r)
    decreases |toks| - p, 1
  {
    if Check(toks, p, Tokens.LEFT_PAREN) then
      if e.Identifier? then
        var call := FunctionCall(e.name, []);
        match (if Check(toks, p + 1, Tokens.RIGHT_PAREN) then Parsed(call, p + 1) else Arguments(toks, p + 1, call))
        case Failed(at) => Failed(at)
        case Parsed(c, q) =>
          match Consume(toks, q, Tokens.RIGHT_PAREN)
          case Failed(at) => Failed(at)
          case Parsed(_, q') => CallLoop(toks, c, q')
      else Failed(p + 1)
    else Parsed(e, p)
  }

  /** The `do ... while (match(COMMA))` argument loop: each argument is
      appended to `call`. */
  function Arguments(toks: seq<Token>, p: nat, call: Expr): (r: Res<Expr>)
    requires p <= |toks| && call.FunctionCall?
    ensures Forward(toks, p, r)
    ensures r.Parsed? ==> r.value.FunctionCall? && r.value.name == call.name
    ensures r.Parsed? ==> |r.value.args| > |call.args| && call.args <= r.value.args
    decreases |toks| - p, 21
  {
    match Expression(toks, p)
    case Failed(at) => Failed(at)
    case Parsed(a, q) =>
      if Check(toks, q, Tokens.COMMA) then Arguments(toks, q + 1, AddArgument(call, a))
      else Parsed(AddArgument(call, a), q)
  }

  /** `primary`: a literal, a name (with one `::` part), or a parenthesised
      expression; anything else is an error at the cursor. */
  function Primary(toks: seq<Token>, p: nat): (r: Res<Expr>)
    requires p <= |toks|
    ensures Forward(toks, p, r)
    decreases |toks| - p, 0
  {
    if Check(toks, p, Tokens.TRUE) then Parsed(BoolLiteral(true), p + 1)
    else if Check(toks, p, Tokens.FALSE) then Parsed(BoolLiteral(false), p + 1)
    else if Check(toks, p, Tokens.NUMBER) then Parsed(NumberLiteral(toks[p].value), p + 1)
    else if Check(toks, p, Tokens.STRING) then Parsed(StringLiteral(toks[p].value), p + 1)
    else if Check(toks, p, Tokens.IDENTIFIER) then
      if Check(toks, p + 1, Tokens.NAMESPACE_SEP) then
        match Consume(toks, p + 2, Tokens.IDENTIFIER)
        case Failed(at) => Failed(at)
        case Parsed(member, q) => Parsed(Identifier(toks[p].value + "::" + member.value), q)
      else Parsed(Identifier(toks[p].value), p + 1)
    else if Check(toks, p, Tokens.LEFT_PAREN) then
      match Expression(toks, p + 1)
      case Failed(at) => Failed(at)
      case Parsed(e, q) =>
        match Consume(toks, q, Tokens.RIGHT_PAREN)
        case Failed(at) => Failed(at)
        case Parsed(_, q') => Parsed(e, q')
    else Failed(p)
  }

  // ---------------------------------------------------------------------
  // Statements

  /** `statement`: dispatch on the first token. */
  function Statement(toks: seq<Token>, p: nat): (r: Res<Stmt>)
    requires p <= |toks|
    ensures Forward(toks, p, r)
    decreases |toks| - p, 2
  {
    if Check(toks, p, Tokens.IMPORT) then ImportStatement(toks, p + 1)
    else if Check(toks, p, Tokens.EXTERN) then Extern(toks, p + 1)
    else if !IsAtEnd(toks, p) && IsTypeKeyword(toks[p].kind) then Declaration(toks, p)
    else if Check(toks, p, Tokens.IF) then If(toks, p + 1)
    else if Check(toks, p, Tokens.WHILE) then While(toks, p + 1)
    else if Check(toks, p, Tokens.RETURN) then Return(toks, p + 1)
    else if Check(toks, p, Tokens.LEFT_BRACE) then
      match BlockBody(toks, p + 1)
      case Failed(at) => Failed(at)
      case Parsed(stmts, q) => Parsed(Block(stmts), q)
    else ExpressionStatement(toks, p)
  }

  /** `declaration`: a type and a name, then a function when `(` follows and
      a variable otherwise. */
  function Declaration(toks: seq<Token>, p: nat): (r: Res<Stmt>)
    requires p <= |toks|
    ensures Forward(toks, p, r)
    ensures r.Parsed? ==> r.value.FunctionDeclaration? || r.value.VariableDeclaration?
    ensures r.Parsed? ==> ParseType(toks, p).Parsed?
    ensures r.Parsed? ==> (r.value.FunctionDeclaration? <==> Check(toks, ParseType(toks, p).next + 1, Tokens.LEFT_PAREN))
    decreases |toks| - p, 1
  {
    match ParseType(toks, p)
    case Failed(at) => Failed(at)
    case Parsed(ty, p1) =>
      match Consume(toks, p1, Tokens.IDENTIFIER)
      case Failed(at) => Failed(at)
      case Parsed(name, p2) =>
        if Check(toks, p2, Tokens.LEFT_PAREN) then
          FunctionRest(toks, ty, name.value, Advance(toks, p2))
        else VariableRest(toks, ty, name.value, p2)
  }

  /** The function branch of `declaration`, after the `(`: the parameters,
      the `)`, and then a body in braces or a `;`. */
  function FunctionRest(toks: seq<Token>, ty: Type, name: string, p: nat): (r: Res<Stmt>)
    requires p <= |toks|
    ensures Forward(toks, p, r)
    ensures r.Parsed? ==> r.value.FunctionDeclaration? && r.value.ret == ty && r.value.name == name
    ensures r.Parsed? ==> ParameterList(toks, p).Parsed? && r.value.params == ParameterList(toks, p).value
    ensures r.Parsed? ==> (r.value.body.Some? <==> Check(toks, ParameterList(toks, p).next, Tokens.LEFT_BRACE))
    decreases |toks| - p, 0
  {
    match ParameterList(toks, p)
    case Failed(at) => Failed(at)
    case Parsed(params, q) =>
      var decl := FunctionDeclaration(ty, name, params, None);
      if Check(toks, q, Tokens.LEFT_BRACE) then
        match BlockBody(toks, q + 1)
        case Failed(at) => Failed(at)
        case Parsed(stmts, q') => Parsed(SetBody(decl, stmts), q')
      else
        match Consume(toks, q, Tokens.SEMICOLON)
        case Failed(at) => Failed(at)
        case Parsed(_, q') => Parsed(decl, q')
  }

  /** A parenthesised parameter list after its `(`: empty when `)` follows at
      once, then the closing `)`. */
  function ParameterList(toks: seq<Token>, p: nat): (r: Res<seq<Param>>)
    requires p <= |toks|
    ensures Forward(toks, p, r)
    ensures r.Parsed? ==> toks[r.next - 1].kind == Tokens.RIGHT_PAREN
    ensures r.Parsed? && r.next == p + 1 ==> r.value == []
  {
    match (if Check(toks, p, Tokens.RIGHT_PAREN) then Parsed([], p) else Parameters(toks, p, []))
    case Failed(at) => Failed(at)
    case Parsed(params, q) =>
      match Consume(toks, q, Tokens.RIGHT_PAREN)
      case Failed(at) => Failed(at)
      case Parsed(_, q') => Parsed(params, q')
  }

  /** The `do ... while (match(COMMA))` parameter loop shared by function
      and extern declarations: a type and a name, appended to `acc`. Each
      parameter takes two or three tokens, and commas separate them. */
  function Parameters(toks: seq<Token>, p: nat, acc: seq<Param>): (r: Res<seq<Param>>)
    requires p <= |toks|
    ensures Forward(toks, p, r)
    ensures r.Parsed? ==> |r.value| > |acc| && acc <= r.value
    ensures r.Parsed? ==> 2 * (|r.value| - |acc|) <= r.next - p
    decreases |toks| - p
  {
    match ParseType(toks, p)
    case Failed(at) => Failed(at)
    case Parsed(ty, p1) =>
      match Consume(toks, p1, Tokens.IDENTIFIER)
      case Failed(at) => Failed(at)
      case Parsed(name, p2) =>
        var params := AddParameter(acc, ty, name.value);
        if Check(toks, p2, Tokens.COMMA) then Parameters(toks, p2 + 1, params) else Parsed(params, p2)
  }

  /** The variable branch of `declaration`: an optional `= expression`, then `;`. */
  function VariableRest(toks: seq<Token>, ty: Type, name: string, p: nat): (r: Res<Stmt>)
    requires p <= |toks|
    ensures Forward(toks, p, r)
    ensures r.Parsed? ==> r.value.VariableDeclaration? && r.value.ty == ty && r.value.name == name
    ensures r.Parsed? ==> (r.value.init.Some? <==> Check(toks, p, Tokens.ASSIGN))
  {
    if Check(toks, p, Tokens.ASSIGN) then
      match Expression(toks, p + 1)
      case Failed(at) => Failed(at)
      case Parsed(init, q) =>
        match Consume(toks, q, Tokens.SEMICOLON)
        case Failed(at) => Failed(at)
        case Parsed(_, q') => Parsed(VariableDeclaration(ty, name, Some(init)), q')
    else
      match Consume(toks, p, Tokens.SEMICOLON)
      case Failed(at) => Failed(at)
      case Parsed(_, q) => Parsed(VariableDeclaration(ty, name, None), q)
  }

  /** `importStatement`, after `import`: a string token and `;`. */
  function ImportStatement(toks: seq<Token>, p: nat): (r: Res<Stmt>)
    requires p <= |toks|
    ensures Forward(toks, p, r)
    ensures r.Parsed? <==> Check(toks, p, Tokens.STRING) && Check(toks, p + 1, Tokens.SEMICOLON)
    ensures r.Parsed? ==> r.value == Ast.ImportStatement(toks[p].value) && r.next == p + 2
  {
    match Consume(toks, p, Tokens.STRING)
    case Failed(at) => Failed(at)
    case Parsed(m, q) =>
      match Consume(toks, q, Tokens.SEMICOLON)
      case Failed(at) => Failed(at)
      case Parsed(_, q') => Parsed(Ast.ImportStatement(m.value), q')
  }

  /** `externDeclaration`, after `extern`: a type, a name, a parenthesised
      parameter list and `;`. What each part of the declaration is read
      from is stated by `ExternReads`. */
  function Extern(toks: seq<Token>, p: nat): (r: Res<Stmt>)
    requires p <= |toks|
    ensures Forward(toks, p, r)
    ensures r.Parsed? ==> r.value.ExternDeclaration?
  {
    match ParseType(toks, p)
    case Failed(at) => Failed(at)
    case Parsed(ty, p1) =>
      match Consume(toks, p1, Tokens.IDENTIFIER)
      case Failed(at) => Failed(at)
      case Parsed(name, p2) =>
        match Consume(toks, p2, Tokens.LEFT_PAREN)
        case Failed(at) => Failed(at)
        case Parsed(_, p3) =>
          match ParameterList(toks, p3)
          case Failed(at) => Failed(at)
          case Parsed(params, q) =>
            match Consume(toks, q, Tokens.SEMICOLON)
            case Failed(at) => Failed(at)
            case Parsed(_, q') => Parsed(ExternDeclaration(ty, name.value, params), q')
  }

  /** An extern declaration's return type is what `parseType` reads, its
      name the identifier after the type, and its parameters what the
      parameter list after the `(` reads, closed by a `;`. */
  lemma ExternReads(toks: seq<Token>, p: nat)
    requires p <= |toks| && Extern(toks, p).Parsed?
    ensures ExternParts(toks, p, Extern(toks, p).value, Extern(toks, p).next)
  {
  }

  /** The parts of extern declaration `d`, read from `p` to `q`: its type is
      what `parseType` reads at `p`, its name the identifier after the type,
      and its parameters what the parameter list after the `(` reads,
      followed by the `;` just before `q`. */
  predicate ExternParts(toks: seq<Token>, p: nat, d: Stmt, q: nat)
    requires p <= |toks|
  {
    && d.ExternDeclaration?
    && ParseType(toks, p).Parsed? && d.ret == ParseType(toks, p).value
    && var n := ParseType(toks, p).next;
    && Check(toks, n, Tokens.IDENTIFIER) && d.name == toks[n].value
    && Check(toks, n + 1, Tokens.LEFT_PAREN)
    && ParameterList(toks, n + 2).Parsed? && d.params == ParameterList(toks, n + 2).value
    && Check(toks, ParameterList(toks, n + 2).next, Tokens.SEMICOLON)
    && q == ParameterList(toks, n + 2).next + 1
  }

  /** `ifStatement`, after `if`: a parenthesised condition, a statement, and
      a second statement when `else` follows. */
  function If(toks: seq<Token>, p: nat): (r: Res<Stmt>)
    requires p <= |toks|
    ensures Forward(toks, p, r)
    ensures r.Parsed? ==> r.value.IfStatement?
    decreases |toks| - p, 0
  {
    match Condition(toks, p)
    case Failed(at) => Failed(at)
    case Parsed(cond, q) =>
      match Statement(toks, q)
      case Failed(at) => Failed(at)
      case Parsed(thenStmt, q1) =>
        if Check(toks, q1, Tokens.ELSE) then
          match Statement(toks, q1 + 1)
          case Failed(at) => Failed(at)
          case Parsed(elseStmt, q2) => Parsed(IfStatement(cond, thenStmt, Some(elseStmt)), q2)
        else Parsed(IfStatement(cond, thenStmt, None), q1)
  }

  /** `whileStatement`, after `while`: a parenthesised condition and a statement. */
  function While(toks: seq<Token>, p: nat): (r: Res<Stmt>)
    requires p <= |toks|
    ensures Forward(toks, p, r)
    ensures r.Parsed? ==> r.value.WhileStatement?
    decreases |toks| - p, 0
  {
    match Condition(toks, p)
    case Failed(at) => Failed(at)
    case Parsed(cond, q) =>
      match Statement(toks, q)
      case Failed(at) => Failed(at)
      case Parsed(body, q1) => Parsed(WhileStatement(cond, body), q1)
  }

  /** The `( expression )` after `if` and `while`. */
  function Condition(toks: seq<Token>, p: nat): (r: Res<Expr>)
    requires p <= |toks|
    ensures Forward(toks, p, r)
    ensures r.Parsed? <==>
              && Check(toks, p, Tokens.LEFT_PAREN) && Expression(toks, p + 1).Parsed?
              && Check(toks, Expression(toks, p + 1).next, Tokens.RIGHT_PAREN)
    ensures r.Parsed? ==> r.value == Expression(toks, p + 1).value && r.next == Expression(toks, p + 1).next + 1
  {
    match Consume(toks, p, Tokens.LEFT_PAREN)
    case Failed(at) => Failed(at)
    case Parsed(_, q) =>
      match Expression(toks, q)
      case Failed(at) => Failed(at)
      case Parsed(cond, q1) =>
        match Consume(toks, q1, Tokens.RIGHT_PAREN)
        case Failed(at) => Failed(at)
        case Parsed(_, q2) => Parsed(cond, q2)
  }

  /** `returnStatement`, after `return`: an expression unless `;` follows at
      once, then the `;`. */
  function Return(toks: seq<Token>, p: nat): (r: Res<Stmt>)
    requires p <= |toks|
    ensures Forward(toks, p, r)
    ensures r.Parsed? ==> r.value.ReturnStatement? && (r.value.result.None? <==> Check(toks, p, Tokens.SEMICOLON))
  {
    if Check(toks, p, Tokens.SEMICOLON) then Parsed(ReturnStatement(None), p + 1)
    else
      match Expression(toks, p)
      case Failed(at) => Failed(at)
      case Parsed(e, q) =>
        match Consume(toks, q, Tokens.SEMICOLON)
        case Failed(at) => Failed(at)
        case Parsed(_, q') => Parsed(ReturnStatement(Some(e)), q')
  }

  /** `expressionStatement`: an identifier followed by `=` starts an
      assignment; anything else is an expression. Either ends in `;`. */
  function ExpressionStatement(toks: seq<Token>, p: nat): (r: Res<Stmt>)
    requires p <= |toks|
    ensures Forward(toks, p, r)
    ensures r.Parsed? ==> r.value.Assignment? || r.value.ExpressionStatement?
    ensures r.Parsed? ==>
              (r.value.Assignment? <==> Check(toks, p, Tokens.IDENTIFIER) && PeekToken(toks, p, 1).kind == Tokens.ASSIGN)
  {
    if Check(toks, p, Tokens.IDENTIFIER) && PeekToken(toks, p, 1).kind == Tokens.ASSIGN then
      var name := CurrentToken(toks, p).value;
      match Expression(toks, p + 2)
      case Failed(at) => Failed(at)
      case Parsed(value, q) =>
        match Consume(toks, q, Tokens.SEMICOLON)
        case Failed(at) => Failed(at)
        case Parsed(_, q') => Parsed(Assignment(name, value), q')
    else
      match Expression(toks, p)
      case Failed(at) => Failed(at)
      case Parsed(e, q) =>
        match Consume(toks, q, Tokens.SEMICOLON)
        case Failed(at) => Failed(at)
        case Parsed(_, q') => Parsed(Ast.ExpressionStatement(e), q')
  }

  /** `block`, after its `{`: statements up to the closing `}`. */
  function BlockBody(toks: seq<Token>, p: nat): (r: Res<seq<Stmt>>)
    requires p <= |toks|
    ensures Forward(toks, p, r)
    ensures r.Parsed? ==> toks[r.next - 1].kind == Tokens.RIGHT_BRACE
    decreases |toks| - p, 4
  {
    BlockLoop(toks, p, [])
  }

  /** The loop of `block`: statements are appended to `acc` until a `}` or
      the end; then the `}` is required. */
  function BlockLoop(toks: seq<Token>, p: nat, acc: seq<Stmt>): (r: Res<seq<Stmt>>)
    requires p <= |toks|
    ensures Forward(toks, p, r)
    ensures r.Parsed? ==> toks[r.next - 1].kind == Tokens.RIGHT_BRACE
    decreases |toks| - p, 3
  {
    if !Check(toks, p, Tokens.RIGHT_BRACE) && !IsAtEnd(toks, p) then
      match Statement(toks, p)
      case Failed(at) => Failed(at)
      case Parsed(s, q) => BlockLoop(toks, q, AddStatement(acc, s))
    else
      match Consume(toks, p, Tokens.RIGHT_BRACE)
      case Failed(at) => Failed(at)
      case Parsed(_, q) => Parsed(acc, q)
  }

  // ---------------------------------------------------------------------
  // `parse` and its recovery

  /** What `parse` hands back: the program, and the cursor of every caught
      `ParseError` in order (the diagnostics themselves are not modelled). */
  datatype Outcome = Outcome(program: Program, errors: seq<nat>)

  /** The skip loop of the `catch` in `parse`: past every token up to the
      end, a `;` or a `}`. */
  function SkipToSync(toks: seq<Token>, p: nat): (r: nat)
    requires p <= |toks|
    ensures p <= r <= |toks|
    ensures IsAtEnd(toks, r) || Check(toks, r, Tokens.SEMICOLON) || Check(toks, r, Tokens.RIGHT_BRACE)
    ensures forall i :: p <= i < r ==> !Check(toks, i, Tokens.SEMICOLON) && !Check(toks, i, Tokens.RIGHT_BRACE)
    decreases |toks| - p
  {
    if !IsAtEnd(toks, p) && !Check(toks, p, Tokens.SEMICOLON) && !Check(toks, p, Tokens.RIGHT_BRACE) then
      SkipToSync(toks, Advance(toks, p))
    else p
  }

  /** The recovery of `parse` as written: skip, then take a `;` if one is
      there. It leaves the cursor at the end, just past a `;`, or on a `}`
      that it does not take. */
  function Recover(toks: seq<Token>, at: nat): (r: nat)
    requires at <= |toks|
    ensures at <= r <= |toks|
    ensures IsAtEnd(toks, r) || (at < r && toks[r - 1].kind == Tokens.SEMICOLON) || Check(toks, r, Tokens.RIGHT_BRACE)
  {
    Match(toks, SkipToSync(toks, at), Tokens.SEMICOLON)
  }

  /** What `statement` gives at every cursor position of `toks`. Since
      `statement` depends on nothing but the token list and the cursor, the
      loops of `parse` read their next statement from this table. */
  function Steps(toks: seq<Token>): (r: seq<Res<Stmt>>)
    ensures StepsFit(toks, r)
    ensures forall i :: 0 <= i <= |toks| ==> r[i] == Statement(toks, i)
  {
    seq(|toks| + 1, i requires 0 <= i <= |toks| => Statement(toks, i))
  }

  /** A table of statement results for `toks`: one per cursor position, each
      reached forward from its position. */
  predicate StepsFit(toks: seq<Token>, steps: seq<Res<Stmt>>) {
    |steps| == |toks| + 1 && forall i :: 0 <= i <= |toks| ==> Forward(toks, i, steps[i])
  }

  /** The loop of `parse` as written, run for at most `fuel` statements:
      `None` when the fuel runs out first. A failed statement is recorded
      and the loop resumes where `Recover` leaves the cursor. */
  function ParseFrom(toks: seq<Token>, steps: seq<Res<Stmt>>, p: nat, prog: Program, errors: seq<nat>, fuel: nat): (r: Option<Outcome>)
    requires p <= |toks| && StepsFit(toks, steps)
    decreases fuel
  {
    if IsAtEnd(toks, p) then Some(Outcome(prog, errors))
    else if fuel == 0 then None
    else
      match steps[p]
      case Parsed(s, q) => ParseFrom(toks, steps, q, Program(AddStatement(prog.stmts, s)), errors, fuel - 1)
      case Failed(at) => ParseFrom(toks, steps, Recover(toks, at), prog, errors + [at], fuel - 1)
  }

  /** `parse` as written, with a bound on the number of loop iterations. */
  function ParseAsWritten(toks: seq<Token>, fuel: nat): Option<Outcome> {
    ParseFrom(toks, Steps(toks), 0, Program([]), [], fuel)
  }

  /** The recovery with the stuck case closed: a `}` that stopped the skip
      is taken as well as a `;`, so a failure not at the end always moves
      the cursor. */
  function Resync(toks: seq<Token>, at: nat): (r: nat)
    requires at <= |toks|
    ensures at <= r <= |toks|
    ensures !IsAtEnd(toks, at) ==> at < r
    ensures IsAtEnd(toks, r) || (at < r && toks[r - 1].kind == Tokens.SEMICOLON) || (at < r && toks[r - 1].kind == Tokens.RIGHT_BRACE)
  {
    var q := SkipToSync(toks, at);
    if Check(toks, q, Tokens.SEMICOLON) || Check(toks, q, Tokens.RIGHT_BRACE) then q + 1 else q
  }

  /** The loop of `parse` with `Resync` for recovery: every iteration moves
      the cursor, so no fuel is needed. */
  function ParseLoop(toks: seq<Token>, steps: seq<Res<Stmt>>, p: nat, prog: Program, errors: seq<nat>): (r: Outcome)
    requires p <= |toks| && StepsFit(toks, steps)
    ensures errors <= r.errors
    ensures forall i :: |errors| <= i < |r.errors| ==> p <= r.errors[i] <= |toks|
    decreases |toks| - p
  {
    if IsAtEnd(toks, p) then Outcome(prog, errors)
    else
      match steps[p]
      case Parsed(s, q) => ParseLoop(toks, steps, q, Program(AddStatement(prog.stmts, s)), errors)
      case Failed(at) => ParseLoop(toks, steps, Resync(toks, at), prog, errors + [at])
  }

  /** `parse`, corrected so that it always finishes. */
  function Parse(toks: seq<Token>): (r: Outcome)
    ensures forall i :: 0 <= i < |r.errors| ==> r.errors[i] <= |toks|
  {
    ParseLoop(toks, Steps(toks), 0, Program([]), [])
  }
}
