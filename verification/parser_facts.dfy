/** Properties of the parser: how statements are told apart, and what the
    error recovery of `parse` does, including the input on which the loop
    as written never finishes. */
module ParserFacts {
  import opened Common
  import opened Ast
  import Tokens
  import opened Parser

  // ---------------------------------------------------------------------
  // Statement dispatch

  /** The statement kind that a first token of kind `k` leads `statement`
      to build. */
  predicate Begins(k: Kind, s: Stmt) {
    match s
    case ImportStatement(_) => k == Tokens.IMPORT
    case ExternDeclaration(_, _, _) => k == Tokens.EXTERN
    case VariableDeclaration(_, _, _) => IsTypeKeyword(k)
    case FunctionDeclaration(_, _, _, _) => IsTypeKeyword(k)
    case IfStatement(_, _, _) => k == Tokens.IF
    case WhileStatement(_, _) => k == Tokens.WHILE
    case ReturnStatement(_) => k == Tokens.RETURN
    case Block(_) => k == Tokens.LEFT_BRACE
    case Assignment(_, _) => k == Tokens.IDENTIFIER
    case ExpressionStatement(_) =>
      !IsTypeKeyword(k) && k != Tokens.IMPORT && k != Tokens.EXTERN && k != Tokens.IF
      && k != Tokens.WHILE && k != Tokens.RETURN && k != Tokens.LEFT_BRACE
  }

  /** Every statement `statement` builds is the kind its first token selects. */
  lemma StatementDispatch(toks: seq<Token>, p: nat)
    requires p <= |toks| && Statement(toks, p).Parsed?
    ensures p < |toks| && Begins(toks[p].kind, Statement(toks, p).value)
  {
  }

  // ---------------------------------------------------------------------
  // Recovery

  /** A `}` cannot start an expression: every level fails at once, without
      moving the cursor. */
  lemma {:induction false} BraceFailsBinary(toks: seq<Token>, p: nat, k: nat)
    requires p < |toks| && toks[p].kind == Tokens.RIGHT_BRACE && k <= 6
    ensures Binary(toks, p, k) == Failed(p)
    decreases 6 - k
  {
    if k == 6 {
      assert Primary(toks, p) == Failed(p);
      assert Call(toks, p) == Failed(p);
    } else {
      BraceFailsBinary(toks, p, k + 1);
    }
  }

  /** A `}` leads `statement` to its last case, the expression statement. */
  lemma BraceDispatch(toks: seq<Token>, p: nat)
    requires p < |toks| && toks[p].kind == Tokens.RIGHT_BRACE
    ensures Statement(toks, p) == Parser.ExpressionStatement(toks, p)
  {
    assert !Check(toks, p, Tokens.IMPORT) && !Check(toks, p, Tokens.EXTERN) && !IsTypeKeyword(toks[p].kind);
    assert !Check(toks, p, Tokens.IF) && !Check(toks, p, Tokens.WHILE) && !Check(toks, p, Tokens.RETURN);
    assert !Check(toks, p, Tokens.LEFT_BRACE);
  }

  /** Nor can a `}` start a statement. */
  lemma BraceFailsStatement(toks: seq<Token>, p: nat)
    requires p < |toks| && toks[p].kind == Tokens.RIGHT_BRACE
    ensures Statement(toks, p) == Failed(p)
  {
    BraceFailsBinary(toks, p, 0);
    assert Expression(toks, p) == Failed(p);
    assert Parser.ExpressionStatement(toks, p) == Failed(p);
    BraceDispatch(toks, p);
  }

  /** A table of statement results in which every `}` fails where it stands. */
  predicate BracesFail(toks: seq<Token>, steps: seq<Res<Stmt>>)
    requires |steps| == |toks| + 1
  {
    forall i :: 0 <= i < |toks| && toks[i].kind == Tokens.RIGHT_BRACE ==> steps[i] == Failed(i)
  }

  /** The table `parse` reads has that property. */
  lemma StepsFailOnBraces(toks: seq<Token>)
    ensures BracesFail(toks, Steps(toks))
  {
    forall i | 0 <= i < |toks| && toks[i].kind == Tokens.RIGHT_BRACE
      ensures Steps(toks)[i] == Failed(i)
    {
      BraceFailsStatement(toks, i);
    }
  }

  /** Once the loop of `parse` as written stands on a `}`, it never
      finishes: the statement fails there, and the recovery stops on the
      same `}` without taking it. */
  lemma {:induction false} StuckOnBrace(toks: seq<Token>, steps: seq<Res<Stmt>>, p: nat, prog: Program, errors: seq<nat>, fuel: nat)
    requires StepsFit(toks, steps) && BracesFail(toks, steps)
    requires p < |toks| && toks[p].kind == Tokens.RIGHT_BRACE
    ensures ParseFrom(toks, steps, p, prog, errors, fuel) == None
    decreases fuel
  {
    if fuel > 0 {
      assert steps[p] == Failed(p);
      assert Recover(toks, p) == p;
      StuckOnBrace(toks, steps, p, prog, errors + [p], fuel - 1);
    }
  }

  /** The token list of the source text `}`. */
  function StrayBrace(): seq<Token> {
    [Tokens.Token(Tokens.RIGHT_BRACE, "}", 1, 1)]
  }

  /** A stray `}`: `parse` as written runs out of every amount of fuel,
      while the corrected loop records one error and an empty program. */
  lemma StrayBraceNeverFinishes(toks: seq<Token>)
    requires toks == StrayBrace()
    ensures forall fuel: nat :: ParseAsWritten(toks, fuel) == None
    ensures Parse(toks) == Outcome(Program([]), [0])
  {
    StepsFailOnBraces(toks);
    forall fuel: nat ensures ParseAsWritten(toks, fuel) == None {
      StuckOnBrace(toks, Steps(toks), 0, Program([]), [], fuel);
    }
    assert Steps(toks)[0] == Failed(0);
    assert Resync(toks, 0) == 1;
  }

  /** Wherever the loop as written does finish, the corrected loop gives the
      same program and the same errors: the two recoveries differ only on a
      `}`, from which the original never finishes. */
  lemma {:induction false} LoopsAgree(toks: seq<Token>, steps: seq<Res<Stmt>>, p: nat, prog: Program, errors: seq<nat>, fuel: nat)
    requires StepsFit(toks, steps) && BracesFail(toks, steps)
    requires p <= |toks| && ParseFrom(toks, steps, p, prog, errors, fuel).Some?
    ensures ParseFrom(toks, steps, p, prog, errors, fuel).value == ParseLoop(toks, steps, p, prog, errors)
    decreases fuel, 1
  {
    if !IsAtEnd(toks, p) {
      if fuel == 0 {
        assert false;
      }
      assert Forward(toks, p, steps[p]);
      match steps[p]
      case Parsed(s, q) =>
        LoopsAgree(toks, steps, q, Program(AddStatement(prog.stmts, s)), errors, fuel - 1);
      case Failed(at) =>
        RecoveriesAgree(toks, steps, p, at, prog, errors, fuel);
    }
  }

  /** `LoopsAgree` for an iteration whose statement failed at `at`: the loop
      as written would stick on a `}`, so it met a `;` or the end, where both
      recoveries leave the cursor in the same place. */
  lemma {:induction false} RecoveriesAgree(toks: seq<Token>, steps: seq<Res<Stmt>>, p: nat, at: nat, prog: Program, errors: seq<nat>, fuel: nat)
    requires StepsFit(toks, steps) && BracesFail(toks, steps)
    requires p < |toks| && fuel > 0 && steps[p] == Failed(at)
    requires ParseFrom(toks, steps, Recover(toks, at), prog, errors + [at], fuel - 1).Some?
    ensures ParseFrom(toks, steps, Recover(toks, at), prog, errors + [at], fuel - 1).value
         == ParseLoop(toks, steps, Resync(toks, at), prog, errors + [at])
    decreases fuel, 0
  {
    var q := SkipToSync(toks, at);
    if Check(toks, q, Tokens.RIGHT_BRACE) {
      StuckOnBrace(toks, steps, q, prog, errors + [at], fuel - 1);
      assert false;
    }
    assert Recover(toks, at) == Resync(toks, at);
    LoopsAgree(toks, steps, Resync(toks, at), prog, errors + [at], fuel - 1);
  }

  /** Whenever `parse` as written finishes, the corrected `parse` returns
      the same program and errors. */
  lemma AsWrittenAgrees(toks: seq<Token>, fuel: nat)
    requires ParseAsWritten(toks, fuel).Some?
    ensures ParseAsWritten(toks, fuel) == Some(Parse(toks))
  {
    StepsFailOnBraces(toks);
    LoopsAgree(toks, Steps(toks), 0, Program([]), [], fuel);
  }

  /** When the loop as written runs out of fuel although it had one
      iteration per remaining token, a `}` lies ahead: only a `}` can keep
      it from moving. */
  lemma {:induction false} FuelRunsOutOnBrace(toks: seq<Token>, steps: seq<Res<Stmt>>, p: nat, prog: Program, errors: seq<nat>, fuel: nat)
    requires StepsFit(toks, steps)
    requires p <= |toks| && fuel >= |toks| - p
    requires ParseFrom(toks, steps, p, prog, errors, fuel).None?
    ensures exists i :: p <= i < |toks| && toks[i].kind == Tokens.RIGHT_BRACE
    decreases fuel
  {
    assert !IsAtEnd(toks, p) && Forward(toks, p, steps[p]);
    match steps[p]
    case Parsed(s, q) =>
      FuelRunsOutOnBrace(toks, steps, q, Program(AddStatement(prog.stmts, s)), errors, fuel - 1);
    case Failed(at) =>
      var q := SkipToSync(toks, at);
      if Check(toks, q, Tokens.RIGHT_BRACE) {
        assert toks[q].kind == Tokens.RIGHT_BRACE;
      } else {
        FuelRunsOutOnBrace(toks, steps, Recover(toks, at), prog, errors + [at], fuel - 1);
      }
  }

  /** On a token list without `}`, `parse` as written finishes within one
      iteration per token, with the result of the corrected `parse`. */
  lemma NoBraceEnoughFuel(toks: seq<Token>)
    requires forall i :: 0 <= i < |toks| ==> toks[i].kind != Tokens.RIGHT_BRACE
    ensures ParseAsWritten(toks, |toks|) == Some(Parse(toks))
  {
    if ParseAsWritten(toks, |toks|).None? {
      FuelRunsOutOnBrace(toks, Steps(toks), 0, Program([]), [], |toks|);
      assert false;
    }
    AsWrittenAgrees(toks, |toks|);
  }

  // ---------------------------------------------------------------------
  // Blocks

  /** `stmts` are the statements `statement` reads one after another from
      `p`, each starting on a token that is neither `}` nor the end, and the
      last one ending at `q`. */
  ghost predicate Sequence(toks: seq<Token>, p: nat, stmts: seq<Stmt>, q: nat)
    decreases |stmts|
  {
    if stmts == [] then p == q
    else
      && p <= |toks| && !Check(toks, p, Tokens.RIGHT_BRACE) && !IsAtEnd(toks, p)
      && Statement(toks, p).Parsed? && Statement(toks, p).value == stmts[0]
      && Sequence(toks, Statement(toks, p).next, stmts[1..], q)
  }

  /** What the block loop appends to `acc` is a sequence of statements read
      from `p`, up to the `}` it takes last. */
  lemma {:induction false} BlockLoopReads(toks: seq<Token>, p: nat, acc: seq<Stmt>, stmts: seq<Stmt>, q: nat)
    requires p <= |toks| && BlockLoop(toks, p, acc) == Parsed(stmts, q)
    ensures acc <= stmts && 0 < q && Sequence(toks, p, stmts[|acc|..], q - 1) && Check(toks, q - 1, Tokens.RIGHT_BRACE)
    decreases |toks| - p
  {
    if !Check(toks, p, Tokens.RIGHT_BRACE) && !IsAtEnd(toks, p) {
      var st := Statement(toks, p);
      var acc' := AddStatement(acc, st.value);
      BlockLoopStep(toks, p, acc);
      BlockLoopReads(toks, st.next, acc', stmts, q);
      assert stmts[|acc|..][1..] == stmts[|acc'|..];
    } else {
      BlockLoopStop(toks, p, acc);
      assert stmts[|acc|..] == [];
    }
  }

  /** One turn of the block loop on a statement. */
  lemma BlockLoopStep(toks: seq<Token>, p: nat, acc: seq<Stmt>)
    requires p <= |toks| && !Check(toks, p, Tokens.RIGHT_BRACE) && !IsAtEnd(toks, p) && Statement(toks, p).Parsed?
    ensures BlockLoop(toks, p, acc) == BlockLoop(toks, Statement(toks, p).next, AddStatement(acc, Statement(toks, p).value))
  {
  }

  /** The block loop on a `}`: it takes the `}` and hands back `acc`. */
  lemma BlockLoopStop(toks: seq<Token>, p: nat, acc: seq<Stmt>)
    requires p <= |toks| && Check(toks, p, Tokens.RIGHT_BRACE)
    ensures BlockLoop(toks, p, acc) == Parsed(acc, p + 1)
  {
  }

  /** Appending the head of `stmts` and then the rest is appending `stmts`. */
  lemma AppendInTwo(acc: seq<Stmt>, stmts: seq<Stmt>)
    requires stmts != []
    ensures AddStatement(acc, stmts[0]) + stmts[1..] == acc + stmts
  {
    assert stmts == [stmts[0]] + stmts[1..];
  }

  /** Statements read from `p` up to a `}` are what the block loop appends. */
  lemma {:induction false} SequenceBlockLoop(toks: seq<Token>, p: nat, stmts: seq<Stmt>, q: nat, acc: seq<Stmt>)
    requires p <= |toks| && Sequence(toks, p, stmts, q) && Check(toks, q, Tokens.RIGHT_BRACE)
    ensures BlockLoop(toks, p, acc) == Parsed(acc + stmts, q + 1)
    decreases |stmts|
  {
    if stmts == [] {
      BlockLoopStop(toks, p, acc);
      assert acc + stmts == acc;
    } else {
      var next := Statement(toks, p).next;
      BlockLoopStep(toks, p, acc);
      SequenceBlockLoop(toks, next, stmts[1..], q, AddStatement(acc, stmts[0]));
      AppendInTwo(acc, stmts);
    }
  }

  /** A block's body is the block loop started with no statements. */
  lemma BlockBodyIsLoop(toks: seq<Token>, p: nat)
    requires p <= |toks|
    ensures BlockBody(toks, p) == BlockLoop(toks, p, [])
  {
  }

  /** The block loop started with no statements reads a sequence up to a `}`. */
  lemma BlockLoopFromStart(toks: seq<Token>, p: nat, stmts: seq<Stmt>, q: nat)
    requires p <= |toks| && BlockLoop(toks, p, []) == Parsed(stmts, q)
    ensures 0 < q && Check(toks, q - 1, Tokens.RIGHT_BRACE)
    ensures Sequence(toks, p, stmts, q - 1)
  {
    var none: seq<Stmt> := [];
    BlockLoopReads(toks, p, none, stmts, q);
    assert stmts[|none|..] == stmts;
  }

  /** What a block's body reads: statements following one another from its
      start, up to the `}` it takes last. */
  lemma BlockBodyReads(toks: seq<Token>, p: nat, stmts: seq<Stmt>, q: nat)
    requires p <= |toks| && BlockBody(toks, p) == Parsed(stmts, q)
    ensures 0 < q && Check(toks, q - 1, Tokens.RIGHT_BRACE)
    ensures Sequence(toks, p, stmts, q - 1)
  {
    BlockBodyIsLoop(toks, p);
    BlockLoopFromStart(toks, p, stmts, q);
  }

  /** Statements following one another from a block's start up to a `}`
      are what its body reads, and the body ends past that `}`. */
  lemma SequenceBlockBody(toks: seq<Token>, p: nat, stmts: seq<Stmt>, q: nat)
    requires p <= |toks| && Sequence(toks, p, stmts, q) && Check(toks, q, Tokens.RIGHT_BRACE)
    ensures BlockBody(toks, p) == Parsed(stmts, q + 1)
  {
    BlockBodyIsLoop(toks, p);
    SequenceBlockLoop(toks, p, stmts, q, []);
    assert [] + stmts == stmts;
  }

  // ---------------------------------------------------------------------
  // What `parse` collects

  /** Strictly increasing cursors. */
  predicate Increasing(xs: seq<nat>) {
    forall i, j :: 0 <= i < j < |xs| ==> xs[i] < xs[j]
  }

  /** The errors the corrected loop records from `p` on come after those
      already recorded, each at a later cursor than the one before. */
  lemma {:induction false} LoopErrorsIncrease(toks: seq<Token>, steps: seq<Res<Stmt>>, p: nat, prog: Program, errors: seq<nat>)
    requires p <= |toks| && StepsFit(toks, steps)
    requires Increasing(errors) && forall i :: 0 <= i < |errors| ==> errors[i] < p
    ensures Increasing(ParseLoop(toks, steps, p, prog, errors).errors)
    decreases |toks| - p
  {
    if !IsAtEnd(toks, p) {
      assert Forward(toks, p, steps[p]);
      match steps[p]
      case Parsed(s, q) =>
        LoopErrorsIncrease(toks, steps, q, Program(AddStatement(prog.stmts, s)), errors);
      case Failed(at) =>
        var errors' := errors + [at];
        assert Increasing(errors');
        if IsAtEnd(toks, at) {
          assert Resync(toks, at) == at;
          assert ParseLoop(toks, steps, p, prog, errors) == Outcome(prog, errors');
        } else {
          LoopErrorsIncrease(toks, steps, Resync(toks, at), prog, errors');
        }
    }
  }

  /** `parse` records its errors in the order of the input, never twice at
      one cursor. */
  lemma ParseErrorsIncrease(toks: seq<Token>)
    ensures Increasing(Parse(toks).errors)
  {
    LoopErrorsIncrease(toks, Steps(toks), 0, Program([]), []);
  }

  /** `stmts` are the statements read by the table entries at cursors `cs`,
      in order, each read ending at or before the next cursor. */
  ghost predicate ReadAt(steps: seq<Res<Stmt>>, stmts: seq<Stmt>, cs: seq<nat>) {
    && |cs| == |stmts|
    && forall k :: 0 <= k < |cs| ==>
         && cs[k] < |steps| && steps[cs[k]].Parsed? && steps[cs[k]].value == stmts[k]
         && (k + 1 < |cs| ==> steps[cs[k]].next <= cs[k + 1])
  }

  /** The statements the corrected loop collects are read at cursors it
      passes, in order. */
  lemma {:induction false} LoopReadsStatements(toks: seq<Token>, steps: seq<Res<Stmt>>, p: nat, prog: Program, errors: seq<nat>, cs: seq<nat>)
      returns (cs': seq<nat>)
    requires p <= |toks| && StepsFit(toks, steps)
    requires ReadAt(steps, prog.stmts, cs) && (|cs| > 0 ==> steps[cs[|cs| - 1]].next <= p)
    ensures ReadAt(steps, ParseLoop(toks, steps, p, prog, errors).program.stmts, cs')
    decreases |toks| - p
  {
    if IsAtEnd(toks, p) {
      cs' := cs;
    } else {
      assert Forward(toks, p, steps[p]);
      match steps[p]
      case Parsed(s, q) =>
        var stmts := AddStatement(prog.stmts, s);
        assert ReadAt(steps, stmts, cs + [p]) by {
          forall k | 0 <= k < |cs| + 1
            ensures (cs + [p])[k] < |steps| && steps[(cs + [p])[k]].Parsed? && steps[(cs + [p])[k]].value == stmts[k]
          {
          }
        }
        cs' := LoopReadsStatements(toks, steps, q, Program(stmts), errors, cs + [p]);
      case Failed(at) =>
        cs' := LoopReadsStatements(toks, steps, Resync(toks, at), prog, errors + [at], cs);
    }
  }

  /** `stmts` are the statements `statement` reads at cursors `cs`, in
      order, each read ending at or before the next cursor. */
  ghost predicate StatementsAt(toks: seq<Token>, stmts: seq<Stmt>, cs: seq<nat>) {
    && |cs| == |stmts|
    && forall k :: 0 <= k < |cs| ==>
         && cs[k] <= |toks| && Statement(toks, cs[k]).Parsed? && Statement(toks, cs[k]).value == stmts[k]
         && (k + 1 < |cs| ==> Statement(toks, cs[k]).next <= cs[k + 1])
  }

  /** Every statement of the program `parse` builds is what `statement`
      reads at the cursor of its iteration, in input order. */
  lemma ParseReadsStatements(toks: seq<Token>)
    ensures exists cs :: StatementsAt(toks, Parse(toks).program.stmts, cs)
  {
    var steps := Steps(toks);
    var cs := LoopReadsStatements(toks, steps, 0, Program([]), [], []);
    assert StatementsAt(toks, Parse(toks).program.stmts, cs);
  }
}
