# MiniC top-level parser and output comparison, in Dafny

This project models two pieces of the MiniC compiler-course repository.

The first is the recursive-descent recognizer of `Parser/Parser.py`, in the
variant whose `ParamsList`, `CompoundStmt` and `VarPart` productions are still
empty (`pass`). The parser keeps one lookahead token. `accept` consumes a token
of the expected kind or reports `% expected here` and raises `SyntaxError`;
`acceptIt` consumes whatever is current; `parse` fetches the first token, runs
`Program ::= (TypeSpecifier ID (FunPart | VarPart))*`, demands end of input,
and catches any `SyntaxError`.

The second is the pair of pure helpers of `autograder.py` that compare a
program's output lines with the expected lines: exact equality, and a count of
differing positions with the shorter list padded by `<no line>`.

Modelling choices:

- The scanner is a `TokenStream`: the tokens it delivers, then the end-of-input
  token at a fixed position on every later request. The parser state is the
  stream, the index of the current token and the error reporter. Fetching the
  next token is `pos + 1`.
- The error reporter is the list of diagnostics it received (template, quoted
  text, position). Its error count is the list's length.
- A raised `SyntaxError` is the `Raised` case of `Outcome`. It carries the
  state reached, because the diagnostic stays reported while the exception
  unwinds. `Outcome` supports `:-`, which plays the role of exception
  propagation.
- `Language.IsProgram` is a separate definition of the token language the
  parser accepts. A program is a sequence of `T x` and `T f ( )` declarations,
  where `T` is `void`, `int`, `bool` or `float`.
- `ParamsList`, `CompoundStmt` and `VarPart` are `pass` (Parser/Parser.py:90-114)
  and consume nothing. So `int x;` gets one report (`;` not expected after end
  of program), and `int f(int x)` fails with `) expected here` at the
  parameter's `int`.
- `parse` returns as soon as it catches a `SyntaxError` (Parser/Parser.py:47-48).
  It neither drains the remaining tokens nor recovers, so at most one error is
  reported.

## Model

| member | source | states |
|---|---|---|
| Parser.AcceptIt | Parser/Parser.py:24-25 | consumes exactly one token and reports nothing; the new lookahead is the next delivered token, or end of input once the tokens are used up |
| Parser.SyntaxError | Parser/Parser.py:27-30 | always raises; adds exactly one diagnostic, carrying the template, the quoted text and the current token's position; does not move the lookahead |
| Parser.Accept | Parser/Parser.py:16-20 | returns normally exactly when the lookahead has the expected kind, and then advances one token with no report; otherwise raises with one `% expected here` diagnostic quoting the expected kind at the lookahead's position, without advancing |
| Parser.IsTypeSpecifier | Parser/Parser.py:32-37 | true exactly for `void`, `int`, `bool` and `float` |
| Parser.ParseParamsList | Parser/Parser.py:90-92 | the empty production returns normally without consuming a token or reporting |
| Parser.ParseCompoundStmt | Parser/Parser.py:101-103 | the empty production returns normally without consuming a token or reporting |
| Parser.ParseVarPart | Parser/Parser.py:112-114 | the empty production returns normally without consuming a token or reporting |
| Parser.ParseFunPart | Parser/Parser.py:74-81 | after the `(`, succeeds exactly when the next token is `)` (a type specifier there is not consumed by the empty parameter list); success consumes `(` `)` and reports nothing; failure reports one `) expected here` at the token after `(` |
| Parser.ParseDeclaration | Parser/Parser.py:59-65 | one loop iteration returns exactly when an identifier follows the type specifier and, if `(` follows it, `)` follows the `(`; a returning iteration consumes two tokens (four with `( )`) and reports nothing; a raising one reports exactly one error |
| Parser.ParseProgram | Parser/Parser.py:58-65 | terminates on every stream; returning normally reports nothing and leaves a lookahead that is not a type specifier; raising reports exactly one error and keeps the earlier diagnostics; never moves backwards |
| Parser.ParseToEnd | Parser/Parser.py:43-46 | a normal return leaves end of input as lookahead with nothing reported; when Program returns on another token, exactly one `% not expected after end of program` is reported, quoting that token's lexeme at its position |
| Parser.Parse | Parser/Parser.py:40-49 | returns a state whatever happens (the error is caught), reports at most one error and keeps the earlier ones; without a report the whole input was read; an input that starts with end of input gets no report |
| Language.DeclaredAt | Parser/Parser.py:59-65 | a returning loop iteration has read the token kinds of one declaration, `T x` or `T f ( )` |
| Language.ProgramIsRecognized | Parser/Parser.py:58-81 | when the remaining tokens spell a program, Program reads all of them and reports nothing |
| Language.RecognizedIsProgram | Parser/Parser.py:58-81 | when Program returns normally at end of input, the tokens it read spell a program |
| Language.ParseAcceptsExactlyPrograms | Parser/Parser.py:40-81 | for a well-formed token stream, parse reports no error exactly when the tokens spell a program, and exactly one error otherwise |
| Scenarios.EmptySourceIsAccepted | Parser/Parser.py:41-46 | an empty source file gets no report |
| Scenarios.BareDeclarationsAreAccepted | Parser/Parser.py:58-81 | `int x float f ( )` gets no report |
| Scenarios.VariableWithSemicolonIsRejected | Parser/Parser.py:112-114 | `int x ;` gets one report, `";" not expected after end of program`, at the `;` |
| Scenarios.ParameterIsRejected | Parser/Parser.py:78-80 | `int f ( int x )` gets one report, `% expected here` quoting the spelling of `)`, at the parameter's `int` |
| Scenarios.FunctionBodyIsRejected | Parser/Parser.py:101-103 | `int main ( ) { }` gets one report, `"{" not expected after end of program`, at the `{` |
| Scenarios.MissingIdentifierIsReportedOnce | Parser/Parser.py:60-61 | `int ( )` gets exactly one report, `% expected here` quoting the spelling of the identifier kind, at the `(` |
| Autograder.CompareOutputs | autograder.py:28-29 | true exactly when both lists have the same length and agree line by line |
| Autograder.CountBelow | autograder.py:34-38 | the loop's count over the first n positions is at most n |
| Autograder.CountBelowIsCardinality | autograder.py:34-38 | the loop's count over the first n positions equals the number of positions below n where the padded lines differ |
| Autograder.CountDifferences | autograder.py:31-39 | the count is the number of differing padded positions, between 0 and the longer list's length |
| Autograder.CountDifferencesOfSame | autograder.py:34-39 | a list compared with itself has no differences |
| Autograder.CountDifferencesSymmetric | autograder.py:34-38 | swapping expected and actual does not change the count |
| Autograder.EqualLengthFailureHasDifference | autograder.py:28-39 | for lists of equal length, the comparison fails exactly when at least one difference is counted |
| Autograder.AppendSameLine | autograder.py:34-38 | appending the same line to two lists of equal length leaves the count unchanged |
| Autograder.AppendSameLineMisaligned | autograder.py:34-38 | for lists of different lengths, appending the same line can raise the count (1 becomes 2 on `["a"]`, `["a","b"]`) |
| Autograder.PlaceholderLineHidesMissingLine | autograder.py:28-39 | an actual line reading `<no line>` matches a missing expected line: the comparison fails but the count is 0 |

## Left out

- The driver `MiniC.py`: it opens the file, prints banners and reads the command line. Its only logic is success when no error was reported, and `Language.ParseAcceptsExactlyPrograms` with `Reporting.Fresh` covers that.
- The scanner's tokenisation rules and `SourcePos`: `Scanner/` is not part of this model. A run of the scanner is its token sequence, and a position is a line and a column.
- `ErrorReporter`'s message formatting and printing, and `Token.spell`: they are not part of this model. A diagnostic keeps the template, the quoted kind or lexeme, and the position.
- The parser constructor's placeholder `currentToken = 0`: `Parse` starts from the first fetched token, and no other entry point reads the placeholder.
- The completed grammar (parameter declarations, compound statements, variable parts, statements, balance-tracked expression and initializer scanning, recovery inside compound statements): the modelled source leaves these productions empty.
- `run_test`, `load_expected_output`, `show_differences`, `grade_all_tests` and the CSV output of `autograder.py`: they start subprocesses, read and write files, or only print.
