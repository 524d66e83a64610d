/** What the words of a parsed command are: maximal stretches of word characters.
    From it follow that printing and parsing again changes nothing, and that
    nulterminate leaves every word behind as a C string. */
module ShellWords {
  import opened ShellSyntax
  import opened ShellPrinter
  import opened ShellRoundTrip

  ghost predicate WordsAre(s: string, words: seq<Span>) {
    forall k | 0 <= k < |words| :: IsWord(s, words[k])
  }

  predicate RedirOk(s: string, r: Redirection) {
    IsWord(s, r.file) && r.fd == FdOf(r.mode)
  }

  ghost predicate RedirsOk(s: string, redirs: seq<Redirection>) {
    forall k | 0 <= k < |redirs| :: RedirOk(s, redirs[k])
  }

  ghost predicate CmdOk(s: string, cmd: Cmd) {
    match cmd
    case Exec(args) => |args| < MAXARGS && WordsAre(s, args)
    case Redir(c, file, mode, fd) => CmdOk(s, c) && IsWord(s, file) && fd == FdOf(mode)
    case Pipe(l, r) => CmdOk(s, l) && CmdOk(s, r)
    case List(l, r) => CmdOk(s, l) && CmdOk(s, r)
    case Back(c) => CmdOk(s, c)
  }

  lemma {:induction false} WrapOk(s: string, cmd: Cmd, redirs: seq<Redirection>)
    requires CmdOk(s, cmd) && RedirsOk(s, redirs)
    ensures CmdOk(s, Wrap(cmd, redirs))
    decreases |redirs|
  {
    if redirs != [] {
      assert RedirOk(s, redirs[0]);
      WrapOk(s, Redir(cmd, redirs[0].file, redirs[0].mode, redirs[0].fd), redirs[1..]);
    }
  }

  lemma {:induction false} ParsedRedirs(s: string, i: nat)
    requires i <= |s|
    ensures var r := ParseRedirs(s, i); r.Ok? ==> RedirsOk(s, r.value)
    decreases |s| - i
  {
    hide SkipSpace, GetToken, IsWord;
    var j := SkipSpace(s, i);
    if At(s, j) == '<' || At(s, j) == '>' {
      RedirToken(s, j);
      var t := GetToken(s, j);
      var w := GetToken(s, t.pos);
      if w.tok == 'a' {
        TokenIsWord(s, t.pos);
        ParsedRedirs(s, w.pos);
      }
    }
  }

  lemma RedirToken(s: string, j: nat)
    requires j <= |s| && (At(s, j) == '<' || At(s, j) == '>')
    ensures var t := GetToken(s, j); ModeOf(t.tok).1 == FdOf(ModeOf(t.tok).0) && j < t.pos
  {
  }

  lemma {:induction false} ParsedArgs(s: string, i: nat, argc: nat)
    requires i <= |s| && argc < MAXARGS
    ensures var r := ParseArgs(s, i, argc);
            r.Ok? ==> argc + |r.value.words| < MAXARGS && WordsAre(s, r.value.words) && RedirsOk(s, r.value.redirs)
    decreases |s| - i
  {
    hide SkipSpace, GetToken, IsWord, RedirOk, ParseRedirs;
    var j := SkipSpace(s, i);
    if !EndsArgs(At(s, j)) {
      var t := GetToken(s, j);
      if t.tok == 'a' && argc + 1 < MAXARGS {
        TokenIsWord(s, j);
        ParsedRedirs(s, t.pos);
        var redirs := ParseRedirs(s, t.pos);
        if redirs.Ok? { ParsedArgs(s, redirs.pos, argc + 1); }
      }
    }
  }

  lemma {:induction false} ParsedExec(s: string, i: nat)
    requires i <= |s|
    ensures var r := ParseExec(s, i); r.Ok? ==> CmdOk(s, r.value)
    decreases |s| - i, 1
  {
    hide SkipSpace, GetToken, IsWord, ParseRedirs, ParseArgs, ParseBlock;
    var j := SkipSpace(s, i);
    if At(s, j) == '(' {
      SkipTwice(s, i);
      ParsedBlock(s, j);
    } else {
      var before := ParseRedirs(s, j);
      ParsedRedirs(s, j);
      if before.Ok? {
        ParsedArgs(s, before.pos, 0);
        var args := ParseArgs(s, before.pos, 0);
        if args.Ok? { WrapOk(s, Exec(args.value.words), before.value + args.value.redirs); }
      }
    }
  }

  lemma {:induction false} ParsedBlock(s: string, i: nat)
    requires i <= |s| && Peek(s, i) == '('
    ensures var r := ParseBlock(s, i); r.Ok? ==> CmdOk(s, r.value)
    decreases |s| - i, 0
  {
    hide IsWord, ParseRedirs, ParseLine;
    var pos := GetToken(s, i).pos;
    ParsedLine(s, pos);
    var body := ParseLine(s, pos);
    if body.Ok? && Peek(s, body.pos) == ')' {
      var at := GetToken(s, body.pos).pos;
      ParsedRedirs(s, at);
      if ParseRedirs(s, at).Ok? { WrapOk(s, body.value, ParseRedirs(s, at).value); }
    }
  }

  lemma {:induction false} ParsedPipe(s: string, i: nat)
    requires i <= |s|
    ensures var r := ParsePipe(s, i); r.Ok? ==> CmdOk(s, r.value)
    decreases |s| - i, 2
  {
    hide IsWord, ParseExec;
    ParsedExec(s, i);
    var left := ParseExec(s, i);
    if left.Ok? {
      var j := SkipSpace(s, left.pos);
      if At(s, j) == '|' { ParsedPipe(s, GetToken(s, j).pos); }
    }
  }

  lemma {:induction false} ParsedBacks(s: string, cmd: Cmd, i: nat)
    requires i <= |s| && CmdOk(s, cmd)
    ensures CmdOk(s, Backs(s, cmd, i).value)
    decreases |s| - i
  {
    var j := SkipSpace(s, i);
    if At(s, j) == '&' { ParsedBacks(s, Back(cmd), GetToken(s, j).pos); }
  }

  lemma {:induction false} ParsedLine(s: string, i: nat)
    requires i <= |s|
    ensures var r := ParseLine(s, i); r.Ok? ==> CmdOk(s, r.value)
    decreases |s| - i, 3
  {
    hide IsWord, ParsePipe, Backs;
    ParsedPipe(s, i);
    var first := ParsePipe(s, i);
    if first.Ok? {
      ParsedBacks(s, first.value, first.pos);
      var j := SkipSpace(s, Backs(s, first.value, first.pos).pos);
      if At(s, j) == ';' { ParsedLine(s, GetToken(s, j).pos); }
    }
  }

  // ---- Parsing, printing and parsing again ----

  lemma WordText(s: string, w: Span)
    requires CString(s) && IsWord(s, w)
    ensures WordOk(Text(s, w))
  {
  }

  lemma {:induction false} TreeIsOk(s: string, cmd: Cmd)
    requires CString(s) && CmdOk(s, cmd)
    ensures TreeOk(TreeOf(s, cmd))
  {
    match cmd
    case Exec(args) =>
      forall k | 0 <= k < |args| ensures WordOk(Texts(s, args)[k]) { WordText(s, args[k]); }
    case Redir(c, file, _, _) => TreeIsOk(s, c); WordText(s, file);
    case Pipe(l, r) => TreeIsOk(s, l); TreeIsOk(s, r);
    case List(l, r) => TreeIsOk(s, l); TreeIsOk(s, r);
    case Back(c) => TreeIsOk(s, c);
  }

  /** Whatever the parser accepts can be printed, and parsing that text gives the same tree. */
  lemma ParsePrintParse(s: string)
    requires CString(s) && ParseCmd(s).Ok?
    ensures var t := TreeOf(s, ParseCmd(s).value);
            var u := Print(t, 3);
            TreeOk(t) && ParseCmd(u).Ok? && TreeOf(u, ParseCmd(u).value) == t
  {
    ParsedLine(s, 0);
    TreeIsOk(s, ParseCmd(s).value);
    PrintThenParse(TreeOf(s, ParseCmd(s).value));
  }

  // ---- nulterminate ----

  /** The places nulterminate writes a NUL to. */
  ghost function Ends(cmd: Cmd): set<nat> {
    match cmd
    case Exec(args) => set k | 0 <= k < |args| :: args[k].eq
    case Redir(c, file, _, _) => Ends(c) + {file.eq}
    case Pipe(l, r) => Ends(l) + Ends(r)
    case List(l, r) => Ends(l) + Ends(r)
    case Back(c) => Ends(c)
  }

  ghost function WordsOf(cmd: Cmd): set<Span> {
    match cmd
    case Exec(args) => set k | 0 <= k < |args| :: args[k]
    case Redir(c, file, _, _) => WordsOf(c) + {file}
    case Pipe(l, r) => WordsOf(l) + WordsOf(r)
    case List(l, r) => WordsOf(l) + WordsOf(r)
    case Back(c) => WordsOf(c)
  }

  /** What a C program reads at q: the characters up to the first NUL. */
  function ReadString(buf: seq<char>, q: nat): string
    decreases |buf| - q
  {
    if q < |buf| && buf[q] != '\0' then [buf[q]] + ReadString(buf, q + 1) else []
  }

  lemma {:induction false} EndsAreEnds(s: string, cmd: Cmd)
    requires CmdOk(s, cmd)
    ensures forall e | e in Ends(cmd) :: e <= |s| && !(e < |s| && IsWordChar(s[e]))
    ensures forall w | w in WordsOf(cmd) :: IsWord(s, w) && w.eq in Ends(cmd)
  {
    match cmd
    case Exec(args) =>
    case Redir(c, file, _, _) => EndsAreEnds(s, c);
    case Pipe(l, r) => EndsAreEnds(s, l); EndsAreEnds(s, r);
    case List(l, r) => EndsAreEnds(s, l); EndsAreEnds(s, r);
    case Back(c) => EndsAreEnds(s, c);
  }

  lemma {:induction false} ReadUpTo(s: string, buf: seq<char>, q: nat, e: nat)
    requires q <= e <= |s| && |buf| == |s| + 1 && buf[e] == '\0'
    requires forall k | q <= k < e :: buf[k] == s[k] && s[k] != '\0'
    ensures ReadString(buf, q) == s[q..e]
    decreases e - q
  {
    if q < e {
      ReadUpTo(s, buf, q + 1, e);
      assert s[q..e] == [s[q]] + s[q + 1..e];
    }
  }

  /** After the NULs are written, each word reads as its token, although words share the buffer. */
  lemma EachWordReads(s: string, buf: seq<char>, cmd: Cmd, w: Span)
    requires CString(s) && CmdOk(s, cmd) && w in WordsOf(cmd) && |buf| == |s| + 1
    requires forall k | 0 <= k <= |s| :: buf[k] == if k in Ends(cmd) then '\0' else (s + "\0")[k]
    ensures ReadString(buf, w.q) == Text(s, w)
  {
    EndsAreEnds(s, cmd);
    forall k | w.q <= k < w.eq ensures buf[k] == s[k] && s[k] != '\0' { assert IsWordChar(s[k]) && k !in Ends(cmd); }
    ReadUpTo(s, buf, w.q, w.eq);
  }
}
