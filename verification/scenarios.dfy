/** Concrete runs of the parser on small MiniC sources, each token on line 1
    at the column shown. */
module Scenarios {
  import opened Tokens
  import opened Reporting
  import opened Parser

  function At(col: nat): SourcePos {
    SourcePos(1, col)
  }

  /** An empty source file: the Program loop runs zero times. */
  lemma EmptySourceIsAccepted()
    ensures Parse(TokenStream([], At(1)), Fresh).reporter == Fresh
  {
  }

  /** `int x float f ( )`: a variable and a parameter-less, body-less function. */
  lemma BareDeclarationsAreAccepted()
    ensures
      var src := TokenStream([Token(INT, "int", At(1)), Token(ID, "x", At(5)),
                              Token(FLOAT, "float", At(7)), Token(ID, "f", At(13)),
                              Token(LEFTPAREN, "(", At(15)), Token(RIGHTPAREN, ")", At(17))], At(18));
      Parse(src, Fresh).reporter == Fresh
  {
  }

  /** `int x ;`: VarPart consumes nothing, so the `;` is left over after the
      program and is reported once. */
  lemma VariableWithSemicolonIsRejected()
    ensures
      var src := TokenStream([Token(INT, "int", At(1)), Token(ID, "x", At(5)),
                              Token(SEMICOLON, ";", At(6))], At(7));
      Parse(src, Fresh).reporter.log == [Diagnostic(NotExpectedAfterEnd, Lexeme(";"), At(6))]
  {
  }

  /** `int f ( int x )`: ParamsList consumes nothing, so `)` is demanded at the
      parameter's type specifier. */
  lemma ParameterIsRejected()
    ensures
      var src := TokenStream([Token(INT, "int", At(1)), Token(ID, "f", At(5)),
                              Token(LEFTPAREN, "(", At(6)), Token(INT, "int", At(7)),
                              Token(ID, "x", At(11)), Token(RIGHTPAREN, ")", At(12))], At(13));
      Parse(src, Fresh).reporter.log == [Diagnostic(ExpectedHere, Spelling(RIGHTPAREN), At(7))]
  {
  }

  /** `int main ( ) { }`: CompoundStmt consumes nothing, so the `{` is left over. */
  lemma FunctionBodyIsRejected()
    ensures
      var src := TokenStream([Token(INT, "int", At(1)), Token(ID, "main", At(5)),
                              Token(LEFTPAREN, "(", At(10)), Token(RIGHTPAREN, ")", At(11)),
                              Token(LEFTBRACE, "{", At(13)), Token(RIGHTBRACE, "}", At(15))], At(16));
      Parse(src, Fresh).reporter.log == [Diagnostic(NotExpectedAfterEnd, Lexeme("{"), At(13))]
  {
  }

  /** `int ( )`: the identifier is missing; the error stops the parse, so the
      rest of the input is not looked at. */
  lemma MissingIdentifierIsReportedOnce()
    ensures
      var src := TokenStream([Token(INT, "int", At(1)), Token(LEFTPAREN, "(", At(5)),
                              Token(RIGHTPAREN, ")", At(6))], At(7));
      Parse(src, Fresh).reporter.log == [Diagnostic(ExpectedHere, Spelling(ID), At(5))]
  {
  }
}
