/** The three stages in the driver's order: the source text is read into
    tokens, the tokens into a program, and the program is lowered to C.
    Two stages are corrected versions of the C++: `Parser.Parse`,
    whose recovery also takes a `}`, and `Generate`, which escapes string
    literals again. Where the loop as written finishes, it parses alike
    (`ParserFacts.AsWrittenAgrees`). */
module Pipeline {
  import opened Common
  import opened Ast
  import Lexer
  import Parser
  import opened CodeGen

  /** The C text for a source text. Statements the parser rejected are
      missing from the program and so from the output. */
  function Compile(src: string): (r: string)
    ensures Includes() <= r
  {
    var p := Parser.Parse(Lexer.Tokenize(src)).program;
    GenerateStartsWithIncludes(p);
    Generate(p)
  }

  /** An empty source text has no tokens, no statements and no errors, and
      lowers to the includes alone. */
  lemma EmptySourceCompilesToIncludes()
    ensures Lexer.Tokenize("") == []
    ensures Parser.Parse([]) == Parser.Outcome(Program([]), [])
    ensures Compile("") == Includes()
  {
    var p := Program([]);
    GenerateWritesProgramText(p);
    assert BuiltinsUsed(p) == {};
    assert Includes() + "" + "" == Includes();
  }

  /** The output of a compilation is the includes, the helpers of the
      builtins the parsed program calls, and the parsed statements, each
      on its own line. */
  lemma CompileLayout(src: string, parts: seq<string>)
    requires |parts| == |Parser.Parse(Lexer.Tokenize(src)).program.stmts|
    requires forall k :: 0 <= k < |parts| ==> parts[k] == StmtText(Parser.Parse(Lexer.Tokenize(src)).program.stmts[k], 0)
    ensures Compile(src) == Includes() + Helpers(BuiltinsUsed(Parser.Parse(Lexer.Tokenize(src)).program)) + Terminated(parts, "\n")
  {
    GenerateLayout(Parser.Parse(Lexer.Tokenize(src)).program, parts);
  }
}
