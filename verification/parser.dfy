/** The recursive-descent recognizer for MiniC top-level declarations, in the
    variant whose ParamsList, CompoundStmt and VarPart productions are still
    empty. The parser holds one token of lookahead; a mismatch reports one
    diagnostic and raises SyntaxError, which unwinds to `Parse`. */
module Parser {
  import opened Tokens
  import opened Reporting

  /** Message templates; `%` stands for the quoted text. */
  const ExpectedHere := "% expected here"
  const NotExpectedAfterEnd := "% not expected after end of program"

  /** The parser between two steps: the scanner's output, the index of the
      current token in it, and the error reporter. */
  datatype State = State(input: TokenStream, pos: nat, reporter: Reporter) {

    /** The lookahead token. */
    function Current(): Token {
      TokenAt(input, pos)
    }
  }

  /** How a parse routine ends: it returns, or it raises SyntaxError. Either
      way the state it reached is kept, since what was reported stays reported
      while the exception unwinds. */
  datatype Outcome = Returned(state: State) | Raised(state: State) {

    predicate IsFailure() {
      Raised?
    }

    function PropagateFailure(): Outcome
      requires Raised?
    {
      this
    }

    function Extract(): State
      requires Returned?
    {
      state
    }
  }

  /** `after` is `before` with exactly one more diagnostic, the given one. */
  predicate ReportedOnce(after: State, before: State, template: string, quoted: Quoted, pos: SourcePos) {
    && after.reporter.NumErrors() == before.reporter.NumErrors() + 1
    && after.reporter.Extends(before.reporter)
    && after.reporter.log[before.reporter.NumErrors()] == Diagnostic(template, quoted, pos)
  }

  /** Consumes the current token whatever it is and fetches the next one. */
  function AcceptIt(st: State): (r: State)
    ensures r.input == st.input && r.reporter == st.reporter
    ensures r.pos == st.pos + 1
    ensures st.pos + 1 < |st.input.tokens| ==> r.Current() == st.input.tokens[st.pos + 1]
    ensures st.pos + 1 >= |st.input.tokens| ==> r.Current() == EndOfInput(st.input)
  {
    st.(pos := st.pos + 1)
  }

  /** Reports `template` with `quoted` at the current token's position and
      raises SyntaxError. */
  function SyntaxError(st: State, template: string, quoted: Quoted): (o: Outcome)
    ensures o.Raised?
    ensures o.state.input == st.input && o.state.pos == st.pos
    ensures ReportedOnce(o.state, st, template, quoted, st.Current().pos)
  {
    Raised(st.(reporter := ReportError(st.reporter, template, quoted, st.Current().pos)))
  }

  /** Consumes the current token if it has the expected kind; otherwise reports
      that kind as expected and raises. */
  function Accept(st: State, expected: TokenKind): (o: Outcome)
    ensures o.state.input == st.input
    ensures o.Returned? <==> st.Current().kind == expected
    ensures o.Returned? ==> o.state.pos == st.pos + 1 && o.state.reporter == st.reporter
    ensures o.Raised? ==> o.state.pos == st.pos
    ensures o.Raised? ==> ReportedOnce(o.state, st, ExpectedHere, Spelling(expected), st.Current().pos)
  {
    if st.Current().kind == expected then
      Returned(AcceptIt(st))
    else
      SyntaxError(st, ExpectedHere, Spelling(expected))
  }

  function IsTypeSpecifier(kind: TokenKind): (b: bool)
    ensures b <==> kind in {VOID, INT, BOOL, FLOAT}
  {
    match kind
    case VOID | INT | BOOL | FLOAT => true
    case _ => false
  }

  /** ParamsList ::= ParamsDecl ("," ParamsDecl)*, not yet implemented. */
  function ParseParamsList(st: State): (o: Outcome)
    ensures o.Returned? && o.state == st
  {
    Returned(st)
  }

  /** CompoundStmt ::= "{" VarDef* Stmt* "}", not yet implemented. */
  function ParseCompoundStmt(st: State): (o: Outcome)
    ensures o.Returned? && o.state == st
  {
    Returned(st)
  }

  /** VarPart ::= ("[" INTLITERAL "]")? ("=" Initializer)? ("," InitDecl)* ";",
      not yet implemented. */
  function ParseVarPart(st: State): (o: Outcome)
    ensures o.Returned? && o.state == st
  {
    Returned(st)
  }

  /** FunPart ::= "(" ParamsList? ")" CompoundStmt, entered on a "(". As the
      parameter list consumes nothing, a type specifier after "(" is still the
      lookahead when ")" is required. */
  function ParseFunPart(st: State): (o: Outcome)
    ensures o.state.input == st.input
    ensures o.Returned? <==> TokenAt(st.input, st.pos + 1).kind == RIGHTPAREN
    ensures o.Returned? ==> o.state.pos == st.pos + 2 && o.state.reporter == st.reporter
    ensures o.Raised? ==> o.state.pos == st.pos + 1
    ensures o.Raised? ==>
      ReportedOnce(o.state, st, ExpectedHere, Spelling(RIGHTPAREN), TokenAt(st.input, st.pos + 1).pos)
  {
    var afterParen := AcceptIt(st);
    var params :=
      if IsTypeSpecifier(afterParen.Current().kind) then ParseParamsList(afterParen)
      else Returned(afterParen);
    match params
    case Raised(_) => params
    case Returned(afterParams) =>
      var afterClose :- Accept(afterParams, RIGHTPAREN);
      ParseCompoundStmt(afterClose)
  }

  /** One iteration of the Program loop, entered on a type specifier: the type
      specifier, the identifier, then FunPart on "(" and VarPart otherwise. */
  function ParseDeclaration(st: State): (o: Outcome)
    ensures o.state.input == st.input
    ensures o.Returned? <==>
      && TokenAt(st.input, st.pos + 1).kind == ID
      && (TokenAt(st.input, st.pos + 2).kind == LEFTPAREN ==> TokenAt(st.input, st.pos + 3).kind == RIGHTPAREN)
    ensures o.Returned? ==> o.state.pos >= st.pos + 2 && o.state.reporter == st.reporter
    ensures o.Returned? ==>
      o.state.pos == if TokenAt(st.input, st.pos + 2).kind == LEFTPAREN then st.pos + 4 else st.pos + 2
    ensures o.Raised? ==> o.state.reporter.NumErrors() == st.reporter.NumErrors() + 1
    ensures o.Raised? ==> o.state.reporter.Extends(st.reporter)
  {
    var afterType := AcceptIt(st);
    var afterName :- Accept(afterType, ID);
    if afterName.Current().kind == LEFTPAREN then ParseFunPart(afterName) else ParseVarPart(afterName)
  }

  /** Program ::= (TypeSpecifier ID (FunPart | VarPart))*. Each iteration
      consumes at least two tokens or raises, so the loop ends on every
      token stream. */
  function ParseProgram(st: State): (o: Outcome)
    ensures o.state.input == st.input
    ensures o.state.pos >= st.pos
    ensures o.Returned? ==> o.state.reporter == st.reporter
    ensures o.Returned? ==> !IsTypeSpecifier(o.state.Current().kind)
    ensures o.Raised? ==> o.state.reporter.NumErrors() == st.reporter.NumErrors() + 1
    ensures o.Raised? ==> o.state.reporter.Extends(st.reporter)
    decreases |st.input.tokens| - st.pos
  {
    if !IsTypeSpecifier(st.Current().kind) then
      Returned(st)
    else
      var next :- ParseDeclaration(st);
      ParseProgram(next)
  }

  /** The body of parse()'s try block: Program, then end of input. */
  function ParseToEnd(st: State): (o: Outcome)
    ensures o.state.input == st.input
    ensures o.Returned? ==> o.state.reporter == st.reporter && o.state.Current().kind == EOF
    ensures o.Raised? ==> o.state.reporter.NumErrors() == st.reporter.NumErrors() + 1
    ensures o.Raised? ==> o.state.reporter.Extends(st.reporter)
    ensures ParseProgram(st).Returned? && ParseProgram(st).state.Current().kind != EOF ==>
      var last := ParseProgram(st).state.Current();
      o.Raised? && ReportedOnce(o.state, ParseProgram(st).state, NotExpectedAfterEnd, Lexeme(last.lexeme), last.pos)
  {
    var done :- ParseProgram(st);
    if done.Current().kind != EOF then
      SyntaxError(done, NotExpectedAfterEnd, Lexeme(done.Current().lexeme))
    else
      Returned(done)
  }

  /** parse(): fetches the first token and runs Program to end of input. A
      raised SyntaxError is caught here, so parsing always returns, with at
      most one error reported. */
  function Parse(input: TokenStream, reporter: Reporter): (st: State)
    ensures st.input == input
    ensures st.reporter.Extends(reporter)
    ensures st.reporter.NumErrors() <= reporter.NumErrors() + 1
    ensures st.reporter == reporter ==> st.Current().kind == EOF
    ensures TokenAt(input, 0).kind == EOF ==> st.reporter == reporter
  {
    match ParseToEnd(State(input, 0, reporter))
    case Returned(done) => done
    case Raised(failed) => failed
  }
}
