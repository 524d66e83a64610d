/** The shell's input as a sequence of tokens (user/sh.c), and its parser as a function
    of the tokens alone: how the input is laid out does not matter. */
module ShellTokens {
  import opened ShellSyntax
  import opened ShellPrinter

  /** '+' stands for >>, as in gettoken. */
  datatype Tok = Word(text: string) | Sym(c: char)

  datatype Tokens = End | More(first: Tok, rest: Tokens)

  function Count(ts: Tokens): nat {
    match ts case End => 0 case More(_, rest) => 1 + Count(rest)
  }

  function TokOf(s: string, t: Token): Tok {
    if t.tok == 'a' then Word(Text(s, t.span)) else Sym(t.tok)
  }

  /** The tokens from the cursor on. */
  function Lex(s: string, i: nat): Tokens
    requires i <= |s|
    decreases |s| - i
  {
    var t := GetToken(s, i);
    if t.tok == '\0' then End else More(TokOf(s, t), Lex(s, t.pos))
  }

  lemma LexSkip(s: string, i: nat)
    requires i <= |s|
    ensures Lex(s, SkipSpace(s, i)) == Lex(s, i) && GetToken(s, SkipSpace(s, i)) == GetToken(s, i)
  {
    hide GetToken;
    TokenSkip(s, i);
  }

  lemma TokenSkip(s: string, i: nat)
    requires i <= |s|
    ensures GetToken(s, SkipSpace(s, i)) == GetToken(s, i)
  {
    hide SkipSpace, WordEnd, At;
    SkipTwice(s, i);
  }

  /** The character that peek looks at. */
  predicate Leads(c: char, ts: Tokens) {
    match ts
    case End => c == '\0'
    case More(t, _) =>
      match t
      case Sym(d) => c == if d == '+' then '>' else d
      case Word(w) => w != [] && c == w[0] && IsWordChar(c) && c != '\0'
  }

  lemma PeekLeads(s: string, i: nat)
    requires i <= |s| && CString(s)
    ensures Leads(Peek(s, i), Lex(s, i)) && (Lex(s, i) == End <==> SkipSpace(s, i) == |s|)
    ensures Lex(s, i) == End ==> GetToken(s, i).tok == '\0' && GetToken(s, i).pos == |s|
    ensures Lex(s, i) != End ==> Lex(s, i) == More(TokOf(s, GetToken(s, i)), Lex(s, GetToken(s, i).pos))
    ensures Lex(s, i) != End ==> GetToken(s, i).tok != '\0' && i < GetToken(s, i).pos
    ensures Lex(s, i) != End && Lex(s, i).first.Sym? ==> GetToken(s, i).tok == Lex(s, i).first.c != 'a'
    ensures Lex(s, i) != End && Lex(s, i).first.Word? ==> GetToken(s, i).tok == 'a'
  {
    hide SkipSpace;
    var t := GetToken(s, i);
    if t.tok == 'a' { TokenIsWord(s, i); }
  }

  // ---- The parser on tokens ----

  datatype Parse<T> = Read(value: T, rest: Tokens) | Failed(why: Panic)

  predicate IsRedir(t: Tok) {
    t == Sym('<') || t == Sym('>') || t == Sym('+')
  }

  function RedirOf(t: Tok, file: string): RText {
    if t == Sym('<') then RText(file, ReadOnly, 0)
    else if t == Sym('>') then RText(file, Truncate, 1)
    else RText(file, Append, 1)
  }

  function Redirs(ts: Tokens): (r: Parse<seq<RText>>)
    ensures r.Read? ==> Count(r.rest) <= Count(ts)
    decreases Count(ts)
  {
    if ts == End || !IsRedir(ts.first) then Read([], ts)
    else if ts.rest == End || !ts.rest.first.Word? then Failed(MissingFile)
    else
      assert Count(ts) == 1 + Count(ts.rest);
      var more := Redirs(ts.rest.rest);
      if more.Failed? then more else Read([RedirOf(ts.first, ts.rest.first.text)] + more.value, more.rest)
  }

  datatype Items = Items(words: seq<string>, redirs: seq<RText>)

  predicate Stops(t: Tok) {
    t == Sym('|') || t == Sym(')') || t == Sym('&') || t == Sym(';')
  }

  function Arguments(ts: Tokens, argc: nat): (r: Parse<Items>)
    ensures r.Read? ==> Count(r.rest) <= Count(ts)
    decreases Count(ts)
  {
    if ts == End || Stops(ts.first) then Read(Items([], []), ts)
    else if !ts.first.Word? then Failed(Syntax)
    else if argc + 1 >= MAXARGS then Failed(TooManyArgs)
    else
      var redirs := Redirs(ts.rest);
      if redirs.Failed? then Failed(redirs.why)
      else
        var more := Arguments(redirs.rest, argc + 1);
        if more.Failed? then more
        else Read(Items([ts.first.text] + more.value.words, redirs.value + more.value.redirs), more.rest)
  }

  /** The first token is this symbol. */
  predicate Starts(ts: Tokens, c: char) {
    ts != End && ts.first == Sym(c)
  }

  function Command(ts: Tokens): (r: Parse<Tree>)
    ensures r.Read? ==> Count(r.rest) <= Count(ts)
    decreases Count(ts), 1
  {
    if Starts(ts, '(') then Block(ts)
    else
      var before := Redirs(ts);
      if before.Failed? then Failed(before.why)
      else
        var args := Arguments(before.rest, 0);
        if args.Failed? then Failed(args.why)
        else Read(Wrapped(TExec(args.value.words), before.value + args.value.redirs), args.rest)
  }

  function Block(ts: Tokens): (r: Parse<Tree>)
    requires Starts(ts, '(')
    ensures r.Read? ==> Count(r.rest) <= Count(ts)
    decreases Count(ts), 0
  {
    var body := Line(ts.rest);
    if body.Failed? then body
    else if !Starts(body.rest, ')') then Failed(MissingParen)
    else
      var redirs := Redirs(body.rest.rest);
      if redirs.Failed? then Failed(redirs.why) else Read(Wrapped(body.value, redirs.value), redirs.rest)
  }

  function Pipeline(ts: Tokens): (r: Parse<Tree>)
    ensures r.Read? ==> Count(r.rest) <= Count(ts)
    decreases Count(ts), 2
  {
    var left := Command(ts);
    if left.Failed? || !Starts(left.rest, '|') then left
    else
      var right := Pipeline(left.rest.rest);
      if right.Failed? then right else Read(TPipe(left.value, right.value), right.rest)
  }

  function Ampersands(t: Tree, ts: Tokens): (r: Parse<Tree>)
    ensures r.Read? && Count(r.rest) <= Count(ts)
    decreases ts
  {
    if !Starts(ts, '&') then Read(t, ts) else Ampersands(TBack(t), ts.rest)
  }

  function Line(ts: Tokens): (r: Parse<Tree>)
    ensures r.Read? ==> Count(r.rest) <= Count(ts)
    decreases Count(ts), 3
  {
    var first := Pipeline(ts);
    if first.Failed? then first
    else
      var left := Ampersands(first.value, first.rest);
      if !Starts(left.rest, ';') then left
      else
        var right := Line(left.rest.rest);
        if right.Failed? then right else Read(TList(left.value, right.value), right.rest)
  }

  function WholeLine(ts: Tokens): Parse<Tree> {
    var line := Line(ts);
    if line.Read? && line.rest != End then Failed(Syntax) else line
  }

  // ---- The parser on characters does the same ----

  ghost predicate Agree(s: string, r: Result<Cmd>, p: Parse<Tree>) {
    match r
    case Ok(cmd, pos) => pos <= |s| && p == Read(TreeOf(s, cmd), Lex(s, pos))
    case Err(why) => p == Failed(why)
  }

  ghost predicate AgreeRedirs(s: string, r: Result<seq<Redirection>>, p: Parse<seq<RText>>) {
    match r
    case Ok(redirs, pos) => pos <= |s| && p.Read? && RedirsAre(s, redirs, p.value) && p.rest == Lex(s, pos)
    case Err(why) => p == Failed(why)
  }

  lemma OneRedir(s: string, redirs: seq<Redirection>, rs: seq<RText>, tok: char, file: Span)
    requires RedirsAre(s, redirs, rs) && (tok == '<' || tok == '>' || tok == '+')
    ensures RedirsAre(s, [Redirection(file, ModeOf(tok).0, ModeOf(tok).1)] + redirs,
      [RedirOf(Sym(tok), Text(s, file))] + rs)
  {
  }

  lemma {:induction false} RedirsAgree(s: string, i: nat)
    requires i <= |s| && CString(s)
    ensures AgreeRedirs(s, ParseRedirs(s, i), Redirs(Lex(s, i)))
    decreases |s| - i
  {
    hide SkipSpace, GetToken, Lex, RedirsAre, ModeOf, RedirOf, Text, At;
    LexSkip(s, i);
    PeekLeads(s, i);
    var j, ts := SkipSpace(s, i), Lex(s, i);
    if ts != End && IsRedir(ts.first) {
      var t := GetToken(s, j);
      PeekLeads(s, t.pos);
      var w := GetToken(s, t.pos);
      if w.tok == 'a' {
        RedirsAgree(s, w.pos);
        var rest := ParseRedirs(s, w.pos);
        if rest.Ok? { OneRedir(s, rest.value, Redirs(Lex(s, w.pos)).value, t.tok, w.span); }
      }
    } else {
      assert RedirsAre(s, [], []) by { EmptyRedirs(s); }
    }
  }

  ghost predicate AgreeArgs(s: string, r: Result<Args>, p: Parse<Items>) {
    match r
    case Ok(a, pos) =>
      pos <= |s| && p.Read? && Texts(s, a.words) == p.value.words && RedirsAre(s, a.redirs, p.value.redirs)
      && p.rest == Lex(s, pos)
    case Err(why) => p == Failed(why)
  }

  lemma {:induction false} ArgsAgree(s: string, i: nat, argc: nat)
    requires i <= |s| && CString(s)
    ensures AgreeArgs(s, ParseArgs(s, i, argc), Arguments(Lex(s, i), argc))
    decreases |s| - i
  {
    hide SkipSpace, GetToken, Lex, ParseRedirs, Redirs, RedirsAre, Text, Texts, At;
    LexSkip(s, i);
    PeekLeads(s, i);
    EmptyRedirs(s);
    var j, ts := SkipSpace(s, i), Lex(s, i);
    if ts == End {
      assert Lex(s, |s|) == End by { EndOfInput(s); }
    } else if ts.first.Word? && argc + 1 < MAXARGS {
      var t := GetToken(s, j);
      RedirsAgree(s, t.pos);
      var redirs := ParseRedirs(s, t.pos);
      if redirs.Ok? {
        ArgsAgree(s, redirs.pos, argc + 1);
        var rest := ParseArgs(s, redirs.pos, argc + 1);
        if rest.Ok? {
          assert Texts(s, [t.span] + rest.value.words) == [Text(s, t.span)] + Texts(s, rest.value.words);
          RedirsJoin(s, redirs.value, rest.value.redirs, Redirs(ts.rest).value,
            Arguments(Lex(s, redirs.pos), argc + 1).value.redirs);
        }
      }
    }
  }

  lemma EndOfInput(s: string)
    ensures Lex(s, |s|) == End
  {
  }

  lemma {:induction false} CommandAgrees(s: string, i: nat)
    requires i <= |s| && CString(s)
    ensures Agree(s, ParseExec(s, i), Command(Lex(s, i)))
    decreases |s| - i, 1
  {
    hide SkipSpace, GetToken, Lex, ParseRedirs, Redirs, ParseArgs, Arguments, ParseBlock, Block, RedirIs, Wrap, Wrapped;
    LexSkip(s, i);
    PeekLeads(s, i);
    var j := SkipSpace(s, i);
    PeekLeads(s, j);
    SkipTwice(s, i);
    if At(s, j) == '(' {
      BlockAgrees(s, j);
    } else {
      RedirsAgree(s, j);
      var before := ParseRedirs(s, j);
      if before.Ok? {
        ArgsAgree(s, before.pos, 0);
        var args := ParseArgs(s, before.pos, 0);
        if args.Ok? {
          var b, a := Redirs(Lex(s, j)), Arguments(Lex(s, before.pos), 0);
          RedirsJoin(s, before.value, args.value.redirs, b.value, a.value.redirs);
          WrapTree(s, Exec(args.value.words), before.value + args.value.redirs, b.value + a.value.redirs);
        }
      }
    }
  }

  lemma {:induction false} BlockAgrees(s: string, i: nat)
    requires i <= |s| && CString(s) && Peek(s, i) == '('
    ensures Starts(Lex(s, i), '(') && Agree(s, ParseBlock(s, i), Block(Lex(s, i)))
    decreases |s| - i, 0
  {
    hide SkipSpace, GetToken, Lex, ParseRedirs, Redirs, ParseLine, Line, RedirIs, Wrap, Wrapped;
    PeekLeads(s, i);
    var pos := GetToken(s, i).pos;
    LineAgrees(s, pos);
    var body := ParseLine(s, pos);
    if body.Ok? {
      PeekLeads(s, body.pos);
      if Peek(s, body.pos) == ')' {
        var at := GetToken(s, body.pos).pos;
        RedirsAgree(s, at);
        if ParseRedirs(s, at).Ok? { WrapTree(s, body.value, ParseRedirs(s, at).value, Redirs(Lex(s, at)).value); }
      }
    }
  }

  lemma {:induction false} PipelineAgrees(s: string, i: nat)
    requires i <= |s| && CString(s)
    ensures Agree(s, ParsePipe(s, i), Pipeline(Lex(s, i)))
    decreases |s| - i, 2
  {
    hide SkipSpace, GetToken, Lex, ParseExec, Command;
    CommandAgrees(s, i);
    var left := ParseExec(s, i);
    if left.Ok? {
      LexSkip(s, left.pos);
      PeekLeads(s, left.pos);
      var j := SkipSpace(s, left.pos);
      if At(s, j) == '|' { PipelineAgrees(s, GetToken(s, j).pos); }
    }
  }

  lemma {:induction false} BacksAgree(s: string, cmd: Cmd, i: nat)
    requires i <= |s| && CString(s)
    ensures Agree(s, Backs(s, cmd, i), Ampersands(TreeOf(s, cmd), Lex(s, i)))
    decreases |s| - i
  {
    hide SkipSpace, GetToken, Lex;
    LexSkip(s, i);
    PeekLeads(s, i);
    var j := SkipSpace(s, i);
    if At(s, j) == '&' { BacksAgree(s, Back(cmd), GetToken(s, j).pos); }
  }

  lemma {:induction false} LineAgrees(s: string, i: nat)
    requires i <= |s| && CString(s)
    ensures Agree(s, ParseLine(s, i), Line(Lex(s, i)))
    decreases |s| - i, 3
  {
    hide SkipSpace, GetToken, Lex, ParsePipe, Pipeline, Backs, Ampersands;
    PipelineAgrees(s, i);
    var first := ParsePipe(s, i);
    if first.Ok? {
      BacksAgree(s, first.value, first.pos);
      var left := Backs(s, first.value, first.pos);
      LexSkip(s, left.pos);
      PeekLeads(s, left.pos);
      var j := SkipSpace(s, left.pos);
      if At(s, j) == ';' { LineAgrees(s, GetToken(s, j).pos); }
    }
  }

  ghost predicate SameOutcome(s: string, r: Result<Cmd>, p: Parse<Tree>) {
    match r
    case Ok(cmd, _) => p == Read(TreeOf(s, cmd), End)
    case Err(why) => p == Failed(why)
  }

  /** parsecmd's outcome, tree or panic, is a function of the tokens alone. */
  lemma OnlyTokensMatter(s: string)
    requires CString(s)
    ensures SameOutcome(s, ParseCmd(s), WholeLine(Lex(s, 0)))
  {
    hide SkipSpace, GetToken, Lex, ParseLine, Line;
    LineAgrees(s, 0);
    var line := ParseLine(s, 0);
    if line.Ok? { PeekLeads(s, line.pos); }
  }
}
