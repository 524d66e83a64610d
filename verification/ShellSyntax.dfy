/** The shell's command language (user/sh.c): what its recursive descent parser
    computes, as functions of the input and a cursor, and a printer for commands. */
module ShellSyntax {

  const MAXARGS: nat := 10

  /** The characters from q up to eq of the input. */
  datatype Span = Span(q: nat, eq: nat)

  datatype Mode = ReadOnly | Truncate | Append   // O_RDONLY; O_WRONLY|O_CREATE|O_TRUNC; O_WRONLY|O_CREATE

  datatype Cmd =
    | Exec(args: seq<Span>)
    | Redir(cmd: Cmd, file: Span, mode: Mode, fd: nat)
    | Pipe(left: Cmd, right: Cmd)
    | List(left: Cmd, right: Cmd)
    | Back(cmd: Cmd)

  datatype Panic = Syntax | TooManyArgs | MissingFile | MissingParen

  datatype Result<T> = Ok(value: T, pos: nat) | Err(why: Panic)

  // ---- Tokens ----

  /** The input before its terminating NUL. */
  predicate CString(s: string) {
    forall k | 0 <= k < |s| :: s[k] != '\0'
  }

  predicate IsSpace(c: char) {
    c == ' ' || c == '\t' || c == '\r' || c == '\n' || c == '\U{000B}'
  }

  predicate IsSymbol(c: char) {
    c == '<' || c == '|' || c == '>' || c == '&' || c == ';' || c == '(' || c == ')'
  }

  predicate IsWordChar(c: char) {
    !IsSpace(c) && !IsSymbol(c)
  }

  /** *(s + i): the terminating NUL beyond the end. */
  function At(s: string, i: nat): char {
    if i < |s| then s[i] else '\0'
  }

  function SkipSpace(s: string, i: nat): (j: nat)
    requires i <= |s|
    ensures i <= j <= |s| && !IsSpace(At(s, j))
    decreases |s| - i
  {
    if i < |s| && IsSpace(s[i]) then SkipSpace(s, i + 1) else i
  }

  function WordEnd(s: string, i: nat): (j: nat)
    requires i <= |s|
    ensures i <= j <= |s|
    decreases |s| - i
  {
    if i < |s| && IsWordChar(s[i]) then WordEnd(s, i + 1) else i
  }

  /** tok is the symbol, '+' for >>, 'a' for a word and NUL at the end. */
  datatype Token = Token(tok: char, span: Span, pos: nat)

  function GetToken(s: string, i: nat): (t: Token)
    requires i <= |s|
    ensures i <= t.span.q <= t.span.eq <= t.pos <= |s|
    ensures t.tok != '\0' ==> t.span.q < t.span.eq
  {
    var q := SkipSpace(s, i);
    var c := At(s, q);
    if c == '\0' then Token(c, Span(q, q), SkipSpace(s, q))
    else if c == '>' && At(s, q + 1) == '>' then Token('+', Span(q, q + 2), SkipSpace(s, q + 2))
    else if IsSymbol(c) then Token(c, Span(q, q + 1), SkipSpace(s, q + 1))
    else var e := WordEnd(s, q); Token('a', Span(q, e), SkipSpace(s, e))
  }

  /** The span is a maximal stretch of word characters. */
  predicate IsWord(s: string, w: Span) {
    && w.q < w.eq <= |s|
    && (forall k | w.q <= k < w.eq :: IsWordChar(s[k]))
    && (w.eq < |s| ==> !IsWordChar(s[w.eq]))
  }

  lemma {:induction false} WordEndIsEnd(s: string, i: nat)
    requires i <= |s|
    ensures var j := WordEnd(s, i); (j < |s| ==> !IsWordChar(s[j])) && forall k | i <= k < j :: IsWordChar(s[k])
    decreases |s| - i
  {
    if i < |s| && IsWordChar(s[i]) { WordEndIsEnd(s, i + 1); }
  }

  lemma TokenIsWord(s: string, i: nat)
    requires i <= |s| && GetToken(s, i).tok == 'a'
    ensures IsWord(s, GetToken(s, i).span)
  {
    WordEndIsEnd(s, SkipSpace(s, i));
  }

  /** The next character that is not white space. */
  function Peek(s: string, i: nat): char
    requires i <= |s|
  {
    At(s, SkipSpace(s, i))
  }

  // ---- The parser ----

  datatype Redirection = Redirection(file: Span, mode: Mode, fd: nat)

  function ModeOf(tok: char): (Mode, nat) {
    if tok == '<' then (ReadOnly, 0) else if tok == '>' then (Truncate, 1) else (Append, 1)
  }

  /** Each redirection goes around what came before it. */
  function Wrap(cmd: Cmd, redirs: seq<Redirection>): Cmd
    decreases |redirs|
  {
    if redirs == [] then cmd
    else Wrap(Redir(cmd, redirs[0].file, redirs[0].mode, redirs[0].fd), redirs[1..])
  }

  /** parseredirs */
  function ParseRedirs(s: string, i: nat): (r: Result<seq<Redirection>>)
    requires i <= |s|
    ensures r.Ok? ==> i <= r.pos <= |s|
    decreases |s| - i
  {
    var j := SkipSpace(s, i);
    if At(s, j) != '<' && At(s, j) != '>' then Ok([], j)
    else
      var t := GetToken(s, j);
      var w := GetToken(s, t.pos);
      if w.tok != 'a' then Err(MissingFile)
      else
        var rest := ParseRedirs(s, w.pos);
        if rest.Err? then rest else Ok([Redirection(w.span, ModeOf(t.tok).0, ModeOf(t.tok).1)] + rest.value, rest.pos)
  }

  predicate EndsArgs(c: char) {
    c == '|' || c == ')' || c == '&' || c == ';'
  }

  datatype Args = Args(words: seq<Span>, redirs: seq<Redirection>)

  /** The loop of parseexec, with argc arguments so far. */
  function ParseArgs(s: string, i: nat, argc: nat): (r: Result<Args>)
    requires i <= |s|
    ensures r.Ok? ==> i <= r.pos <= |s|
    decreases |s| - i
  {
    var j := SkipSpace(s, i);
    if EndsArgs(At(s, j)) then Ok(Args([], []), j)
    else
      var t := GetToken(s, j);
      if t.tok == '\0' then Ok(Args([], []), t.pos)
      else if t.tok != 'a' then Err(Syntax)
      else if argc + 1 >= MAXARGS then Err(TooManyArgs)
      else
        var redirs := ParseRedirs(s, t.pos);
        if redirs.Err? then Err(redirs.why)
        else
          var rest := ParseArgs(s, redirs.pos, argc + 1);
          if rest.Err? then rest
          else Ok(Args([t.span] + rest.value.words, redirs.value + rest.value.redirs), rest.pos)
  }

  function ParseExec(s: string, i: nat): (r: Result<Cmd>)
    requires i <= |s|
    ensures r.Ok? ==> i <= r.pos <= |s|
    decreases |s| - i, 1
  {
    var j := SkipSpace(s, i);
    if At(s, j) == '(' then ParseBlock(s, j)
    else
      var before := ParseRedirs(s, j);
      if before.Err? then Err(before.why)
      else
        var args := ParseArgs(s, before.pos, 0);
        if args.Err? then Err(args.why)
        else Ok(Wrap(Exec(args.value.words), before.value + args.value.redirs), args.pos)
  }

  function ParseBlock(s: string, i: nat): (r: Result<Cmd>)
    requires i <= |s| && Peek(s, i) == '('
    ensures r.Ok? ==> i <= r.pos <= |s|
    decreases |s| - i, 0
  {
    var body := ParseLine(s, GetToken(s, i).pos);
    if body.Err? then body
    else if Peek(s, body.pos) != ')' then Err(MissingParen)
    else
      var redirs := ParseRedirs(s, GetToken(s, body.pos).pos);
      if redirs.Err? then Err(redirs.why) else Ok(Wrap(body.value, redirs.value), redirs.pos)
  }

  function ParsePipe(s: string, i: nat): (r: Result<Cmd>)
    requires i <= |s|
    ensures r.Ok? ==> i <= r.pos <= |s|
    decreases |s| - i, 2
  {
    var left := ParseExec(s, i);
    if left.Err? then left
    else
      var j := SkipSpace(s, left.pos);
      if At(s, j) != '|' then Ok(left.value, j)
      else
        var right := ParsePipe(s, GetToken(s, j).pos);
        if right.Err? then right else Ok(Pipe(left.value, right.value), right.pos)
  }

  /** The loop of parseline: each & puts the command so far in the background. */
  function Backs(s: string, cmd: Cmd, i: nat): (r: Result<Cmd>)
    requires i <= |s|
    ensures r.Ok? && i <= r.pos <= |s|
    decreases |s| - i
  {
    var j := SkipSpace(s, i);
    if At(s, j) != '&' then Ok(cmd, j) else Backs(s, Back(cmd), GetToken(s, j).pos)
  }

  function ParseLine(s: string, i: nat): (r: Result<Cmd>)
    requires i <= |s|
    ensures r.Ok? ==> i <= r.pos <= |s|
    decreases |s| - i, 3
  {
    var first := ParsePipe(s, i);
    if first.Err? then first
    else
      var left := Backs(s, first.value, first.pos);
      var j := SkipSpace(s, left.pos);
      if At(s, j) != ';' then Ok(left.value, j)
      else
        var right := ParseLine(s, GetToken(s, j).pos);
        if right.Err? then right else Ok(List(left.value, right.value), right.pos)
  }

  /** parsecmd, up to nulterminate. */
  function ParseCmd(s: string): Result<Cmd> {
    var line := ParseLine(s, 0);
    if line.Err? then line
    else
      var j := SkipSpace(s, line.pos);
      if j != |s| then Err(Syntax) else Ok(line.value, j)
  }
}
