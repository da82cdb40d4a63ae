/** The shapes the expression ladder gives to small inputs: precedence,
    left association, nested unary operators, calls and qualified names.
    The names in the inputs are arbitrary; the operators are fixed. The step
    lemmas name the cursor after a token (`n == p + 1`) as a parameter of
    its own, so that each example states its cursors as plain numbers. */
module ParserExamples {
  import opened Common
  import opened Ast
  import Tokens
  import opened Parser

  /** A token on line 1; the position plays no part in parsing. */
  function Tok(k: Kind, v: string): Token {
    Tokens.Token(k, v, 1, 1)
  }

  /** No operator of level `k` or above is under the cursor at `q`. */
  predicate NoOpFrom(toks: seq<Token>, q: nat, k: nat) {
    forall j :: k <= j < 6 ==> !CheckOp(toks, q, j)
  }

  // ---------------------------------------------------------------------
  // Steps of the ladder

  /** An expression parsed at level `from` that no operator of level `k`
      or above follows is what every level from `k` to `from` returns. */
  lemma {:induction false} Climb(toks: seq<Token>, p: nat, k: nat, from: nat, e: Expr, q: nat)
    requires p <= |toks| && k <= from <= 6 && Binary(toks, p, from) == Parsed(e, q)
    requires q <= |toks| && NoOpFrom(toks, q, k)
    ensures Binary(toks, p, k) == Parsed(e, q)
    decreases from - k
  {
    if k < from {
      Climb(toks, p, k + 1, from, e, q);
      assert !CheckOp(toks, q, k);
    }
  }

  /** A failure at the unary level is the failure of every level above it. */
  lemma {:induction false} FailUp(toks: seq<Token>, p: nat, k: nat, at: nat)
    requires p <= |toks| && k <= 6 && Binary(toks, p, 6) == Failed(at)
    ensures Binary(toks, p, k) == Failed(at)
    decreases 6 - k
  {
    if k < 6 {
      FailUp(toks, p, k + 1, at);
    }
  }

  /** The end of input closes every level. */
  lemma EndStopsAll(toks: seq<Token>, q: nat)
    requires q <= |toks| && IsAtEnd(toks, q)
    ensures NoOpFrom(toks, q, 0)
  {
  }

  /** A binary level `k` hands the operand of level `k1 == k + 1` to its loop. */
  lemma LevelStep(toks: seq<Token>, p: nat, k: nat, k1: nat, e: Expr, q: nat)
    requires p <= |toks| && k < 6 && k1 == k + 1 && Binary(toks, p, k1) == Parsed(e, q)
    ensures q <= |toks| && Binary(toks, p, k) == BinaryLoop(toks, e, q, k)
  {
  }

  /** One round of a binary loop: the operator at `p` and the right operand
      from `n == p + 1` wrap what was built so far. */
  lemma LoopStep(toks: seq<Token>, acc: Expr, p: nat, n: nat, k: nat, k1: nat, right: Expr, q: nat)
    requires p < |toks| && n == p + 1 && k < 6 && k1 == k + 1
    requires CheckOp(toks, p, k) && Binary(toks, n, k1) == Parsed(right, q)
    ensures q <= |toks|
    ensures BinaryLoop(toks, acc, p, k) == BinaryLoop(toks, BinaryOperation(acc, OpText(toks, p, k), right), q, k)
  {
  }

  /** A binary loop ends where no operator of its level stands. */
  lemma LoopStop(toks: seq<Token>, acc: Expr, p: nat, k: nat)
    requires p <= |toks| && k < 6 && !CheckOp(toks, p, k)
    ensures BinaryLoop(toks, acc, p, k) == Parsed(acc, p)
  {
  }

  /** A token that is neither `!` nor `-` leaves the unary level to `call`. */
  lemma UnaryToCall(toks: seq<Token>, p: nat)
    requires p <= |toks| && !Check(toks, p, Tokens.NOT) && !Check(toks, p, Tokens.MINUS)
    ensures Binary(toks, p, 6) == Call(toks, p)
  {
  }

  /** `call` runs its loop on what `primary` parsed. */
  lemma CallFrom(toks: seq<Token>, p: nat, e: Expr, q: nat)
    requires p <= |toks| && Primary(toks, p) == Parsed(e, q)
    ensures q <= |toks| && Call(toks, p) == CallLoop(toks, e, q)
  {
  }

  /** The loop of `call` ends where no `(` stands. */
  lemma CallStop(toks: seq<Token>, e: Expr, p: nat)
    requires p <= |toks| && !Check(toks, p, Tokens.LEFT_PAREN)
    ensures CallLoop(toks, e, p) == Parsed(e, p)
  {
  }

  /** An identifier that no `::` follows is a primary on its own. */
  lemma PrimaryName(toks: seq<Token>, p: nat, n: nat)
    requires n < |toks| && n == p + 1 && toks[p].kind == Tokens.IDENTIFIER && toks[n].kind != Tokens.NAMESPACE_SEP
    ensures Primary(toks, p) == Parsed(Identifier(toks[p].value), n)
  {
  }

  /** An identifier that no `::` follows: the unary level gives what the
      loop of `call` makes of that name. */
  lemma NameCall(toks: seq<Token>, p: nat, n: nat, c: Expr, q: nat)
    requires n < |toks| && n == p + 1 && toks[p].kind == Tokens.IDENTIFIER && toks[n].kind != Tokens.NAMESPACE_SEP
    requires CallLoop(toks, Identifier(toks[p].value), n) == Parsed(c, q)
    ensures Binary(toks, p, 6) == Parsed(c, q)
  {
    PrimaryName(toks, p, n);
    CallFrom(toks, p, Identifier(toks[p].value), n);
    UnaryToCall(toks, p);
  }

  /** A plain name: an identifier that neither `(` nor `::` follows parses
      as one `Identifier` at every level whose operators do not follow it. */
  lemma NameAt(toks: seq<Token>, p: nat, n: nat, k: nat)
    requires n < |toks| && n == p + 1 && k <= 6 && toks[p].kind == Tokens.IDENTIFIER
    requires toks[n].kind != Tokens.LEFT_PAREN && toks[n].kind != Tokens.NAMESPACE_SEP
    requires NoOpFrom(toks, n, k)
    ensures Binary(toks, p, k) == Parsed(Identifier(toks[p].value), n)
  {
    CallStop(toks, Identifier(toks[p].value), n);
    NameCall(toks, p, n, Identifier(toks[p].value), n);
    Climb(toks, p, k, 6, Identifier(toks[p].value), n);
  }

  // ---------------------------------------------------------------------
  // Precedence and association

  /** The tokens of `a + b * c`. */
  function SumOfProduct(a: string, b: string, c: string): seq<Token> {
    [Tok(Tokens.IDENTIFIER, a), Tok(Tokens.PLUS, "+"), Tok(Tokens.IDENTIFIER, b),
     Tok(Tokens.MULTIPLY, "*"), Tok(Tokens.IDENTIFIER, c), Tok(Tokens.EOF_TOKEN, "")]
  }

  /** The right operand `b * c` of `a + b * c`, at the factor level. */
  lemma ProductOperand(a: string, b: string, c: string)
    ensures Binary(SumOfProduct(a, b, c), 2, 5) == Parsed(BinaryOperation(Identifier(b), "*", Identifier(c)), 5)
  {
    var toks := SumOfProduct(a, b, c);
    EndStopsAll(toks, 5);
    NameAt(toks, 4, 5, 6);
    NameAt(toks, 2, 3, 6);
    LevelStep(toks, 2, 5, 6, Identifier(b), 3);
    LoopStep(toks, Identifier(b), 3, 4, 5, 6, Identifier(c), 5);
    LoopStop(toks, BinaryOperation(Identifier(b), "*", Identifier(c)), 5, 5);
  }

  /** `a + b * c` is `a + (b * c)`: the factor level binds tighter than the
      term level. */
  lemma Precedence(a: string, b: string, c: string)
    ensures Expression(SumOfProduct(a, b, c), 0)
         == Parsed(BinaryOperation(Identifier(a), "+", BinaryOperation(Identifier(b), "*", Identifier(c))), 5)
  {
    var toks := SumOfProduct(a, b, c);
    var product := BinaryOperation(Identifier(b), "*", Identifier(c));
    var sum := BinaryOperation(Identifier(a), "+", product);
    ProductOperand(a, b, c);
    EndStopsAll(toks, 5);
    NameAt(toks, 0, 1, 5);
    LevelStep(toks, 0, 4, 5, Identifier(a), 1);
    LoopStep(toks, Identifier(a), 1, 2, 4, 5, product, 5);
    LoopStop(toks, sum, 5, 4);
    Climb(toks, 0, 0, 4, sum, 5);
  }

  /** The tokens of `a - b - c`. */
  function Difference(a: string, b: string, c: string): seq<Token> {
    [Tok(Tokens.IDENTIFIER, a), Tok(Tokens.MINUS, "-"), Tok(Tokens.IDENTIFIER, b),
     Tok(Tokens.MINUS, "-"), Tok(Tokens.IDENTIFIER, c), Tok(Tokens.EOF_TOKEN, "")]
  }

  /** `a - b - c` is `(a - b) - c`: a binary level associates to the left. */
  lemma LeftAssociative(a: string, b: string, c: string)
    ensures Expression(Difference(a, b, c), 0)
         == Parsed(BinaryOperation(BinaryOperation(Identifier(a), "-", Identifier(b)), "-", Identifier(c)), 5)
  {
    var toks := Difference(a, b, c);
    var first := BinaryOperation(Identifier(a), "-", Identifier(b));
    var both := BinaryOperation(first, "-", Identifier(c));
    EndStopsAll(toks, 5);
    NameAt(toks, 4, 5, 5);
    NameAt(toks, 2, 3, 5);
    NameAt(toks, 0, 1, 5);
    LevelStep(toks, 0, 4, 5, Identifier(a), 1);
    LoopStep(toks, Identifier(a), 1, 2, 4, 5, Identifier(b), 3);
    LoopStep(toks, first, 3, 4, 4, 5, Identifier(c), 5);
    LoopStop(toks, both, 5, 4);
    Climb(toks, 0, 0, 4, both, 5);
  }

  /** The tokens of `- - x`. */
  function DoubleNegation(x: string): seq<Token> {
    [Tok(Tokens.MINUS, "-"), Tok(Tokens.MINUS, "-"), Tok(Tokens.IDENTIFIER, x), Tok(Tokens.EOF_TOKEN, "")]
  }

  /** `-` before a unary operand parsed from `n == p + 1`. */
  lemma NegationStep(toks: seq<Token>, p: nat, n: nat, e: Expr, q: nat)
    requires p < |toks| && n == p + 1 && toks[p].kind == Tokens.MINUS && Unary(toks, n) == Parsed(e, q)
    ensures Unary(toks, p) == Parsed(UnaryOperation(toks[p].value, e), q)
  {
  }

  /** `- - x` is `-(-(x))`: the unary level nests to the right. */
  lemma UnaryNests(x: string)
    ensures Expression(DoubleNegation(x), 0)
         == Parsed(UnaryOperation("-", UnaryOperation("-", Identifier(x))), 3)
  {
    var toks := DoubleNegation(x);
    var e := UnaryOperation("-", UnaryOperation("-", Identifier(x)));
    NameAt(toks, 2, 3, 6);
    NegationStep(toks, 1, 2, Identifier(x), 3);
    NegationStep(toks, 0, 1, UnaryOperation("-", Identifier(x)), 3);
    EndStopsAll(toks, 3);
    Climb(toks, 0, 0, 6, e, 3);
  }

  // ---------------------------------------------------------------------
  // Calls and names

  /** The tokens of `f(x, y)`. */
  function TwoArgumentCall(f: string, x: string, y: string): seq<Token> {
    [Tok(Tokens.IDENTIFIER, f), Tok(Tokens.LEFT_PAREN, "("), Tok(Tokens.IDENTIFIER, x), Tok(Tokens.COMMA, ","),
     Tok(Tokens.IDENTIFIER, y), Tok(Tokens.RIGHT_PAREN, ")"), Tok(Tokens.EOF_TOKEN, "")]
  }

  /** An argument followed by `,`: it is appended and the list goes on at
      `n == q + 1`. */
  lemma ArgumentStep(toks: seq<Token>, p: nat, call: Expr, a: Expr, q: nat, n: nat)
    requires p <= |toks| && n == q + 1 && call.FunctionCall?
    requires Expression(toks, p) == Parsed(a, q) && Check(toks, q, Tokens.COMMA)
    ensures n <= |toks|
    ensures Arguments(toks, p, call) == Arguments(toks, n, AddArgument(call, a))
  {
  }

  /** An argument that no `,` follows ends the list. */
  lemma ArgumentLast(toks: seq<Token>, p: nat, call: Expr, a: Expr, q: nat)
    requires p <= |toks| && call.FunctionCall? && Expression(toks, p) == Parsed(a, q) && !Check(toks, q, Tokens.COMMA)
    ensures Arguments(toks, p, call) == Parsed(AddArgument(call, a), q)
  {
  }

  /** A non-empty argument list from `n == p + 1`, after a name and its `(`
      at `p`, closed by a `)` at `q`: the loop of `call` goes on at
      `m == q + 1` with the call. */
  lemma CallStep(toks: seq<Token>, name: string, p: nat, n: nat, c: Expr, q: nat, m: nat)
    requires p < |toks| && n == p + 1 && m == q + 1
    requires Check(toks, p, Tokens.LEFT_PAREN) && !Check(toks, n, Tokens.RIGHT_PAREN)
    requires Arguments(toks, n, FunctionCall(name, [])) == Parsed(c, q) && Check(toks, q, Tokens.RIGHT_PAREN)
    ensures m <= |toks|
    ensures CallLoop(toks, Identifier(name), p) == CallLoop(toks, c, m)
  {
  }

  /** The last argument `y)` of `f(x, y)`. */
  lemma LastArgument(f: string, x: string, y: string)
    ensures Arguments(TwoArgumentCall(f, x, y), 4, FunctionCall(f, [Identifier(x)]))
         == Parsed(FunctionCall(f, [Identifier(x), Identifier(y)]), 5)
  {
    var toks := TwoArgumentCall(f, x, y);
    var one := FunctionCall(f, [Identifier(x)]);
    NameAt(toks, 4, 5, 0);
    assert AddArgument(one, Identifier(y)) == FunctionCall(f, [Identifier(x), Identifier(y)]);
    ArgumentLast(toks, 4, one, Identifier(y), 5);
  }

  /** The argument list `x, y)` of `f(x, y)`, each argument in turn. */
  lemma ArgumentList(f: string, x: string, y: string)
    ensures Arguments(TwoArgumentCall(f, x, y), 2, FunctionCall(f, []))
         == Parsed(FunctionCall(f, [Identifier(x), Identifier(y)]), 5)
  {
    var toks := TwoArgumentCall(f, x, y);
    NameAt(toks, 2, 3, 0);
    assert AddArgument(FunctionCall(f, []), Identifier(x)) == FunctionCall(f, [Identifier(x)]);
    ArgumentStep(toks, 2, FunctionCall(f, []), Identifier(x), 3, 4);
    LastArgument(f, x, y);
  }

  /** `f(x, y)` at the unary level. */
  lemma CallOperand(f: string, x: string, y: string)
    ensures Binary(TwoArgumentCall(f, x, y), 0, 6)
         == Parsed(FunctionCall(f, [Identifier(x), Identifier(y)]), 6)
  {
    var toks := TwoArgumentCall(f, x, y);
    var call := FunctionCall(f, [Identifier(x), Identifier(y)]);
    ArgumentList(f, x, y);
    CallStep(toks, f, 1, 2, call, 5, 6);
    CallStop(toks, call, 6);
    NameCall(toks, 0, 1, call, 6);
  }

  /** `f(x, y)` is one call of `f` with its arguments in source order. */
  lemma CallArguments(f: string, x: string, y: string)
    ensures Expression(TwoArgumentCall(f, x, y), 0)
         == Parsed(FunctionCall(f, [Identifier(x), Identifier(y)]), 6)
  {
    var toks := TwoArgumentCall(f, x, y);
    CallOperand(f, x, y);
    EndStopsAll(toks, 6);
    Climb(toks, 0, 0, 6, FunctionCall(f, [Identifier(x), Identifier(y)]), 6);
  }

  /** A `(` after a callee that is not a name is an error, reported just
      after the `(`: `1(x)` does not parse. */
  lemma CallNeedsName(toks: seq<Token>)
    requires |toks| >= 2 && toks[0].kind == Tokens.NUMBER && toks[1].kind == Tokens.LEFT_PAREN
    ensures Expression(toks, 0) == Failed(2)
  {
    assert Primary(toks, 0) == Parsed(NumberLiteral(toks[0].value), 1);
    assert Call(toks, 0) == Failed(2);
    FailUp(toks, 0, 0, 2);
  }

  /** The tokens of `ns::name`. */
  function Qualified(ns: string, name: string): seq<Token> {
    [Tok(Tokens.IDENTIFIER, ns), Tok(Tokens.NAMESPACE_SEP, "::"), Tok(Tokens.IDENTIFIER, name), Tok(Tokens.EOF_TOKEN, "")]
  }

  /** `ns::name` is one identifier whose name keeps the `::`. */
  lemma QualifiedName(ns: string, name: string)
    ensures Expression(Qualified(ns, name), 0) == Parsed(Identifier(ns + "::" + name), 3)
  {
    var toks := Qualified(ns, name);
    var e := Identifier(ns + "::" + name);
    assert Primary(toks, 0) == Parsed(e, 3);
    CallFrom(toks, 0, e, 3);
    CallStop(toks, e, 3);
    UnaryToCall(toks, 0);
    EndStopsAll(toks, 3);
    Climb(toks, 0, 0, 6, e, 3);
  }
}
