/** The error reporter the parser writes to. Message formatting and printing
    are not part of this model: the reporter keeps the diagnostics it was given,
    and its error count is their number. */
module Reporting {
  import opened Tokens

  /** The text a diagnostic quotes in place of the template's `%`: either the
      canonical spelling of a token kind or the lexeme of the offending token. */
  datatype Quoted = Spelling(kind: TokenKind) | Lexeme(text: string)

  datatype Diagnostic = Diagnostic(template: string, quoted: Quoted, pos: SourcePos)

  datatype Reporter = Reporter(log: seq<Diagnostic>) {

    function NumErrors(): nat {
      |log|
    }

    /** This reporter holds every diagnostic `earlier` holds, in the same order,
        possibly followed by more. */
    predicate Extends(earlier: Reporter) {
      |earlier.log| <= |log| && log[..|earlier.log|] == earlier.log
    }
  }

  /** A reporter that has seen no error. */
  const Fresh := Reporter([])

  /** Records one diagnostic. */
  function ReportError(r: Reporter, template: string, quoted: Quoted, pos: SourcePos): (r': Reporter)
    ensures r'.NumErrors() == r.NumErrors() + 1
    ensures r'.Extends(r)
    ensures r'.log[r.NumErrors()] == Diagnostic(template, quoted, pos)
  {
    Reporter(r.log + [Diagnostic(template, quoted, pos)])
  }

  /** Two reporters of which one extends the other and that hold equally many
      diagnostics are the same. */
  lemma ExtendsSameCount(later: Reporter, earlier: Reporter)
    requires later.Extends(earlier)
    requires later.NumErrors() == earlier.NumErrors()
    ensures later == earlier
  {
  }
}
