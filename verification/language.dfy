/** The token language the parser accepts, stated independently of the parse
    routines: a sequence of declarations `T x` and `T f ( )`, where T is a type
    specifier. Parameter lists, function bodies and variable initialisers are
    not in it, since the productions for them are still empty. */
module Language {
  import opened Tokens
  import opened Reporting
  import opened Parser

  datatype Decl = VarDecl(ty: TokenKind) | FunDecl(ty: TokenKind)

  function Spelled(d: Decl): seq<TokenKind> {
    match d
    case VarDecl(ty) => [ty, ID]
    case FunDecl(ty) => [ty, ID, LEFTPAREN, RIGHTPAREN]
  }

  predicate AllTyped(ds: seq<Decl>) {
    forall i :: 0 <= i < |ds| ==> IsTypeSpecifier(ds[i].ty)
  }

  function Concat(ds: seq<Decl>): seq<TokenKind> {
    if ds == [] then [] else Spelled(ds[0]) + Concat(ds[1..])
  }

  /** `ks` spells a program of the accepted language. */
  ghost predicate IsProgram(ks: seq<TokenKind>) {
    exists ds :: AllTyped(ds) && Concat(ds) == ks
  }

  /** Parsing a program from its first token runs Program to the end of the
      input without reporting anything. */
  lemma {:induction false} ProgramIsRecognized(st: State, ds: seq<Decl>)
    requires st.pos <= |st.input.tokens|
    requires AllTyped(ds)
    requires Concat(ds) == Kinds(st.input)[st.pos..]
    ensures ParseProgram(st) == Returned(st.(pos := |st.input.tokens|))
    decreases ds
  {
    if ds == [] {
      assert |Kinds(st.input)[st.pos..]| == 0;
    } else {
      assert IsTypeSpecifier(ds[0].ty);
      assert |ds| > 1 ==> IsTypeSpecifier(ds[1].ty);
      var next := FirstDeclRecognized(st, ds);
      ProgramIsRecognized(next, ds[1..]);
    }
  }

  /** The first declaration of a program is read by one iteration of the
      Program loop, which ends where the rest of the program starts. */
  lemma FirstDeclRecognized(st: State, ds: seq<Decl>) returns (next: State)
    requires st.pos <= |st.input.tokens|
    requires ds != [] && IsTypeSpecifier(ds[0].ty)
    requires |ds| > 1 ==> IsTypeSpecifier(ds[1].ty)
    requires Concat(ds) == Kinds(st.input)[st.pos..]
    ensures IsTypeSpecifier(st.Current().kind)
    ensures ParseDeclaration(st) == Returned(next)
    ensures next.pos == st.pos + |Spelled(ds[0])| <= |st.input.tokens|
    ensures Concat(ds[1..]) == Kinds(st.input)[next.pos..]
  {
    ConcatStartsWithType(ds);
    KindAt(st.input, st.pos);
    assert Kinds(st.input)[st.pos..][0] == st.Current().kind;
    if ds[0].FunDecl? {
      FunDeclKinds(st.input, st.pos, ds);
    } else {
      VarDeclKinds(st.input, st.pos, ds);
    }
    next := ParseDeclaration(st).state;
  }

  /** The token kinds at the start of a program that begins with a function:
      its type, an identifier, "(" and ")". */
  lemma FunDeclKinds(input: TokenStream, pos: nat, ds: seq<Decl>)
    requires pos <= |input.tokens|
    requires ds != [] && ds[0].FunDecl?
    requires Concat(ds) == Kinds(input)[pos..]
    ensures TokenAt(input, pos + 1).kind == ID
    ensures TokenAt(input, pos + 2).kind == LEFTPAREN
    ensures TokenAt(input, pos + 3).kind == RIGHTPAREN
    ensures pos + 4 <= |input.tokens|
    ensures Concat(ds[1..]) == Kinds(input)[pos + 4..]
  {
    var first := [ds[0].ty, ID, LEFTPAREN, RIGHTPAREN];
    assert Concat(ds) == first + Concat(ds[1..]);
    KindsSplit(input, pos, first, Concat(ds[1..]));
    assert first[1] == ID && first[2] == LEFTPAREN && first[3] == RIGHTPAREN;
  }

  /** The token kinds at the start of a program that begins with a variable:
      its type and an identifier, then no "(". */
  lemma VarDeclKinds(input: TokenStream, pos: nat, ds: seq<Decl>)
    requires pos <= |input.tokens|
    requires ds != [] && ds[0].VarDecl?
    requires |ds| > 1 ==> IsTypeSpecifier(ds[1].ty)
    requires Concat(ds) == Kinds(input)[pos..]
    ensures TokenAt(input, pos + 1).kind == ID
    ensures TokenAt(input, pos + 2).kind != LEFTPAREN
    ensures pos + 2 <= |input.tokens|
    ensures Concat(ds[1..]) == Kinds(input)[pos + 2..]
  {
    var rest := ds[1..];
    var first := [ds[0].ty, ID];
    assert Concat(ds) == first + Concat(rest);
    KindsSplit(input, pos, first, Concat(rest));
    assert first[1] == ID;
    if rest != [] {
      NextDeclStartsAt(input, pos + 2, rest);
    }
  }

  /** Where a program that is not empty starts, the token is its first type. */
  lemma NextDeclStartsAt(input: TokenStream, pos: nat, ds: seq<Decl>)
    requires pos <= |input.tokens|
    requires ds != []
    requires Concat(ds) == Kinds(input)[pos..]
    ensures pos < |input.tokens|
    ensures TokenAt(input, pos).kind == ds[0].ty
  {
    ConcatStartsWithType(ds);
    KindAt(input, pos);
    assert Kinds(input)[pos..][0] == Kinds(input)[pos];
  }

  /** Putting a declaration in front of a program spells its tokens first. */
  lemma ConsDecl(d: Decl, rest: seq<Decl>)
    ensures Concat([d] + rest) == Spelled(d) + Concat(rest)
    ensures IsTypeSpecifier(d.ty) && AllTyped(rest) ==> AllTyped([d] + rest)
  {
    assert ([d] + rest)[1..] == rest;
  }

  /** A program that is not empty starts with its first declaration's type. */
  lemma ConcatStartsWithType(ds: seq<Decl>)
    requires ds != []
    ensures |Concat(ds)| >= 2 && Concat(ds)[0] == ds[0].ty
  {
    assert Concat(ds) == Spelled(ds[0]) + Concat(ds[1..]);
  }

  /** The remaining kinds split into a first part and a rest: the first part
      is what the next tokens are, and the rest is what follows them. */
  lemma KindsSplit(input: TokenStream, pos: nat, first: seq<TokenKind>, rest: seq<TokenKind>)
    requires pos <= |input.tokens|
    requires Kinds(input)[pos..] == first + rest
    ensures pos + |first| <= |input.tokens|
    ensures forall j :: 0 <= j < |first| ==> TokenAt(input, pos + j).kind == first[j]
    ensures Kinds(input)[pos + |first|..] == rest
  {
    var ks := Kinds(input);
    forall j | 0 <= j < |first|
      ensures TokenAt(input, pos + j).kind == first[j]
    {
      KindAt(input, pos + j);
      assert ks[pos..][j] == ks[pos + j];
    }
    assert ks[pos + |first|..] == ks[pos..][|first|..];
  }

  /** A run of Program that returns normally on the end of input has read a
      program of the accepted language. */
  lemma {:induction false} RecognizedIsProgram(st: State) returns (ds: seq<Decl>)
    requires WellFormed(st.input)
    requires st.pos <= |st.input.tokens|
    requires ParseProgram(st).Returned? && ParseProgram(st).state.Current().kind == EOF
    ensures AllTyped(ds) && Concat(ds) == Kinds(st.input)[st.pos..]
    decreases |st.input.tokens| - st.pos
  {
    if !IsTypeSpecifier(st.Current().kind) {
      ProgramStopsAtEnd(st);
      ds := [];
    } else {
      var d, next := ProgramStep(st);
      var rest := RecognizedIsProgram(next);
      ds := [d] + rest;
      ConsDecl(d, rest);
    }
  }

  /** Program stops at once on anything but a type specifier; on a well-formed
      stream, stopping at end of input means every token has been read. */
  lemma ProgramStopsAtEnd(st: State)
    requires WellFormed(st.input)
    requires st.pos <= |st.input.tokens|
    requires !IsTypeSpecifier(st.Current().kind)
    requires ParseProgram(st).state.Current().kind == EOF
    ensures Kinds(st.input)[st.pos..] == []
  {
    assert ParseProgram(st) == Returned(st);
  }

  /** One successful iteration of Program, started on a type specifier, reads
      one declaration; Program then runs on from where it stopped. */
  lemma ProgramStep(st: State) returns (d: Decl, next: State)
    requires IsTypeSpecifier(st.Current().kind)
    requires ParseProgram(st).Returned?
    ensures IsTypeSpecifier(d.ty)
    ensures next.input == st.input
    ensures st.pos < next.pos <= |st.input.tokens|
    ensures ParseProgram(next) == ParseProgram(st)
    ensures Kinds(st.input)[st.pos..] == Spelled(d) + Kinds(st.input)[next.pos..]
  {
    var o := ProgramContinues(st);
    d := DeclaredAt(st);
    KindsJoin(st.input, st.pos, Spelled(d));
    next := o.state;
  }

  /** A run of Program that starts on a type specifier and returns normally
      went through one successful iteration and then ran on from there. */
  lemma ProgramContinues(st: State) returns (o: Outcome)
    requires IsTypeSpecifier(st.Current().kind)
    requires ParseProgram(st).Returned?
    ensures o == ParseDeclaration(st) && o.Returned?
    ensures ParseProgram(st) == ParseProgram(o.state)
    ensures st.pos < o.state.pos <= |st.input.tokens|
  {
    o := ParseDeclaration(st);
  }

  /** The declaration one successful iteration of the Program loop reads. */
  lemma DeclaredAt(st: State) returns (d: Decl)
    requires IsTypeSpecifier(st.Current().kind)
    requires ParseDeclaration(st).Returned?
    ensures IsTypeSpecifier(d.ty)
    ensures ParseDeclaration(st).state.pos == st.pos + |Spelled(d)| <= |st.input.tokens|
    ensures forall j :: 0 <= j < |Spelled(d)| ==> TokenAt(st.input, st.pos + j).kind == Spelled(d)[j]
  {
    var ty := st.Current().kind;
    assert TokenAt(st.input, st.pos + 1).kind == ID;
    if TokenAt(st.input, st.pos + 2).kind == LEFTPAREN {
      d := FunDecl(ty);
      assert TokenAt(st.input, st.pos + 3).kind == RIGHTPAREN;
    } else {
      d := VarDecl(ty);
    }
  }

  /** When the next tokens have the kinds `first`, the remaining kinds start
      with `first`. */
  lemma KindsJoin(input: TokenStream, pos: nat, first: seq<TokenKind>)
    requires pos + |first| <= |input.tokens|
    requires forall j :: 0 <= j < |first| ==> TokenAt(input, pos + j).kind == first[j]
    ensures Kinds(input)[pos..] == first + Kinds(input)[pos + |first|..]
  {
    var ks := Kinds(input);
    forall j | 0 <= j < |first|
      ensures ks[pos..pos + |first|][j] == first[j]
    {
      KindAt(input, pos + j);
    }
    assert ks[pos..pos + |first|] == first;
    assert ks[pos..] == ks[pos..pos + |first|] + ks[pos + |first|..];
  }

  /** parse() reports no error exactly when the delivered tokens spell a
      program, and exactly one error otherwise. */
  lemma ParseAcceptsExactlyPrograms(input: TokenStream, reporter: Reporter)
    requires WellFormed(input)
    ensures Parse(input, reporter).reporter.NumErrors() == reporter.NumErrors() <==> IsProgram(Kinds(input))
    ensures !IsProgram(Kinds(input)) ==> Parse(input, reporter).reporter.NumErrors() == reporter.NumErrors() + 1
  {
    var st := State(input, 0, reporter);
    var done := Parse(input, reporter);
    assert Kinds(input)[0..] == Kinds(input);
    if done.reporter.NumErrors() == reporter.NumErrors() {
      ExtendsSameCount(done.reporter, reporter);
      var ds := RecognizedIsProgram(st);
    }
    if IsProgram(Kinds(input)) {
      var ds :| AllTyped(ds) && Concat(ds) == Kinds(input);
      ProgramIsRecognized(st, ds);
    }
  }
}
