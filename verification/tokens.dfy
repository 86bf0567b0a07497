/** The tokens the MiniC parser consumes, and the token source that delivers
    them. The scanner's tokenisation rules are not part of this model: one run
    of the scanner is represented by the finite sequence of tokens it delivers,
    after which it answers every further request with the end-of-input token. */
module Tokens {

  /** Lexical categories: the terminals of the MiniC grammar. */
  datatype TokenKind =
    | ID
    | VOID | INT | BOOL | FLOAT
    | IF | ELSE | FOR | WHILE | RETURN
    | INTLITERAL | FLOATLITERAL | BOOLLITERAL | STRINGLITERAL
    | LEFTPAREN | RIGHTPAREN | LEFTBRACE | RIGHTBRACE | LEFTBRACKET | RIGHTBRACKET
    | SEMICOLON | COMMA | ASSIGN
    | OPERATOR  // any arithmetic, relational or logical operator
    | ERROR     // a character sequence the scanner could not classify
    | EOF

  /** Where a token starts in the source file. */
  datatype SourcePos = SourcePos(line: nat, col: nat)

  datatype Token = Token(kind: TokenKind, lexeme: string, pos: SourcePos)

  /** What one run of the scanner delivers: `tokens` in order, then the
      end-of-input token at `endPos` on every later request. */
  datatype TokenStream = TokenStream(tokens: seq<Token>, endPos: SourcePos)

  /** The end-of-input token. Its spelling is never quoted in a diagnostic. */
  function EndOfInput(input: TokenStream): Token {
    Token(EOF, "", input.endPos)
  }

  /** The token the scanner answers on its (i+1)-th request. */
  function TokenAt(input: TokenStream, i: nat): Token {
    if i < |input.tokens| then input.tokens[i] else EndOfInput(input)
  }

  /** The scanner marks the end of input only once it has delivered every
      token: no end-of-input token appears among `tokens`. */
  predicate WellFormed(input: TokenStream) {
    forall i :: 0 <= i < |input.tokens| ==> input.tokens[i].kind != EOF
  }

  /** The kinds of the delivered tokens, end of input excluded. */
  function Kinds(input: TokenStream): (ks: seq<TokenKind>)
    ensures |ks| == |input.tokens|
  {
    seq(|input.tokens|, i requires 0 <= i < |input.tokens| => input.tokens[i].kind)
  }

  /** Entry i of the kinds is the kind of the (i+1)-th delivered token. */
  lemma KindAt(input: TokenStream, i: nat)
    requires i < |input.tokens|
    ensures Kinds(input)[i] == TokenAt(input, i).kind
  {
  }
}
