/** Commands as trees of words, a printer for them, and the proof that parsing what
    the printer writes gives the same tree back. */
module ShellPrinter {
  import opened ShellSyntax

  /** A command whose words are strings, not places in the input. */
  datatype Tree =
    | TExec(words: seq<string>)
    | TRedir(tree: Tree, file: string, mode: Mode, fd: nat)
    | TPipe(left: Tree, right: Tree)
    | TList(left: Tree, right: Tree)
    | TBack(tree: Tree)

  function Text(s: string, w: Span): string {
    if w.q <= w.eq <= |s| then s[w.q..w.eq] else []
  }

  function Texts(s: string, words: seq<Span>): (r: seq<string>)
    ensures |r| == |words| && forall k | 0 <= k < |words| :: r[k] == Text(s, words[k])
  {
    seq(|words|, k requires 0 <= k < |words| => Text(s, words[k]))
  }

  function TreeOf(s: string, cmd: Cmd): Tree {
    match cmd
    case Exec(args) => TExec(Texts(s, args))
    case Redir(c, file, mode, fd) => TRedir(TreeOf(s, c), Text(s, file), mode, fd)
    case Pipe(l, r) => TPipe(TreeOf(s, l), TreeOf(s, r))
    case List(l, r) => TList(TreeOf(s, l), TreeOf(s, r))
    case Back(c) => TBack(TreeOf(s, c))
  }

  // ---- The printer ----

  predicate WordOk(w: string) {
    w != [] && forall k | 0 <= k < |w| :: IsWordChar(w[k]) && w[k] != '\0'
  }

  /** Standard input for reading, standard output for writing. */
  function FdOf(mode: Mode): nat {
    if mode == ReadOnly then 0 else 1
  }

  /** Words are words, no command has more than MAXARGS - 1 of them, and redirections
      are of the file descriptors the language can name. */
  predicate TreeOk(t: Tree) {
    match t
    case TExec(words) => |words| < MAXARGS && forall k | 0 <= k < |words| :: WordOk(words[k])
    case TRedir(c, file, mode, fd) => TreeOk(c) && WordOk(file) && fd == FdOf(mode)
    case TPipe(l, r) => TreeOk(l) && TreeOk(r)
    case TList(l, r) => TreeOk(l) && TreeOk(r)
    case TBack(c) => TreeOk(c)
  }

  function Words(words: seq<string>): string {
    if words == [] then "" else " " + words[0] + Words(words[1..])
  }

  function Symbol(mode: Mode): string {
    match mode case ReadOnly => " <" case Truncate => " >" case Append => " >>"
  }

  /** Lists bind weakest, then &, then pipes; the rest needs no parentheses. */
  function Level(t: Tree): nat {
    if t.TList? then 3 else if t.TBack? then 2 else if t.TPipe? then 1 else 0
  }

  /** t as it may stand where commands up to the level may. */
  function Print(t: Tree, level: nat): string
    decreases t, 1
  {
    if Level(t) <= level then Bare(t) else " (" + Bare(t) + " )"
  }

  function Bare(t: Tree): string
    decreases t, 0
  {
    match t
    case TExec(words) => Words(words)
    case TRedir(c, file, mode, _) => Print(c, 0) + Symbol(mode) + " " + file
    case TPipe(l, r) => Print(l, 0) + " |" + Print(r, 1)
    case TList(l, r) => Print(l, 2) + " ;" + Print(r, 3)
    case TBack(c) => Print(c, 2) + " &"
  }

  // ---- Text in its place ----

  /** The input has the text u at p. */
  predicate Here(s: string, p: nat, u: string) {
    p + |u| <= |s| && s[p..p + |u|] == u
  }

  lemma HereParts(s: string, p: nat, u: string, v: string)
    requires Here(s, p, u + v)
    ensures Here(s, p, u) && Here(s, p + |u|, v)
  {
    assert (u + v)[..|u|] == u && (u + v)[|u|..] == v;
    assert s[p..p + |u|] == s[p..p + |u + v|][..|u|];
    assert s[p + |u|..p + |u| + |v|] == s[p..p + |u + v|][|u|..];
  }

  /** The cursor i stands where p stands, up to white space. */
  predicate Same(s: string, i: nat, p: nat) {
    i <= |s| && p <= |s| && SkipSpace(s, i) == SkipSpace(s, p)
  }

  lemma SkipTwice(s: string, i: nat)
    requires i <= |s|
    ensures SkipSpace(s, SkipSpace(s, i)) == SkipSpace(s, i)
  {
  }

  /** A symbol behind one blank. */
  lemma SymbolHere(s: string, i: nat, p: nat, c: char)
    requires Same(s, i, p) && Here(s, p, [' ', c]) && IsSymbol(c)
    ensures SkipSpace(s, i) == p + 1 && Peek(s, i) == c
    ensures c != '>' || At(s, p + 2) != '>' ==> GetToken(s, i).tok == c && Same(s, GetToken(s, i).pos, p + 2)
    ensures c == '>' && At(s, p + 2) == '>' ==>
      GetToken(s, i).tok == '+' && p + 3 <= |s| && Same(s, GetToken(s, i).pos, p + 3)
  {
    SeeHere(s, p, [' ', c]);
    assert SkipSpace(s, p) == SkipSpace(s, p + 1) == p + 1;
    if c == '>' && At(s, p + 2) == '>' { SkipTwice(s, p + 3); } else { SkipTwice(s, p + 2); }
  }

  lemma SeeHere(s: string, p: nat, u: string)
    requires Here(s, p, u)
    ensures forall k | 0 <= k < |u| :: s[p + k] == u[k]
  {
    forall k | 0 <= k < |u| ensures s[p + k] == u[k] { assert s[p..p + |u|][k] == s[p + k]; }
  }

  lemma {:induction false} WordEndIs(s: string, i: nat, e: nat)
    requires i <= e <= |s| && (forall k | i <= k < e :: IsWordChar(s[k])) && (e < |s| ==> !IsWordChar(s[e]))
    ensures WordEnd(s, i) == e
    decreases e - i
  {
    if i < e { WordEndIs(s, i + 1, e); }
  }

  /** A word behind one blank, with something else behind it. */
  lemma WordHere(s: string, i: nat, p: nat, w: string)
    requires Same(s, i, p) && Here(s, p, " " + w) && WordOk(w)
    requires var e := p + 1 + |w|; e < |s| ==> !IsWordChar(s[e])
    ensures var t := GetToken(s, i); t.tok == 'a' && Text(s, t.span) == w && Same(s, t.pos, p + 1 + |w|)
    ensures SkipSpace(s, i) == p + 1 && Peek(s, i) == w[0] && IsWordChar(w[0])
  {
    SeeHere(s, p, " " + w);
    assert (" " + w)[1..] == w;
    var e := p + 1 + |w|;
    assert SkipSpace(s, p) == SkipSpace(s, p + 1) == p + 1 by { assert s[p + 1] == (" " + w)[1] == w[0]; }
    forall k | p + 1 <= k < e ensures IsWordChar(s[k]) { assert s[k] == (" " + w)[k - p] == w[k - p - 1]; }
    WordEndIs(s, p + 1, e);
    SkipTwice(s, e);
    assert s[p + 1..e] == w by { assert s[p..p + |" " + w|][1..] == s[p + 1..e]; }
    assert s[p + 1] == w[0] != '\0';
  }

  /** What may follow a printed token is a blank or the end. */
  predicate Gap(s: string, k: nat) {
    k <= |s| && (k < |s| ==> s[k] == ' ')
  }

  // ---- Redirections and words ----

  datatype RText = RText(file: string, mode: Mode, fd: nat)

  predicate RTextOk(r: RText) {
    WordOk(r.file) && r.fd == FdOf(r.mode)
  }

  function RedirText(rs: seq<RText>): string {
    if rs == [] then "" else Symbol(rs[0].mode) + " " + rs[0].file + RedirText(rs[1..])
  }

  predicate RedirIs(s: string, r: Redirection, t: RText) {
    Text(s, r.file) == t.file && r.mode == t.mode && r.fd == t.fd
  }

  predicate RedirsAre(s: string, redirs: seq<Redirection>, rs: seq<RText>) {
    |redirs| == |rs| && forall k | 0 <= k < |rs| :: RedirIs(s, redirs[k], rs[k])
  }

  lemma OpHere(s: string, i: nat, p: nat, mode: Mode)
    requires Same(s, i, p) && Here(s, p, Symbol(mode)) && At(s, p + |Symbol(mode)|) == ' '
    ensures Peek(s, i) == '<' || Peek(s, i) == '>'
    ensures ModeOf(GetToken(s, i).tok) == (mode, FdOf(mode)) && Same(s, GetToken(s, i).pos, p + |Symbol(mode)|)
  {
    hide GetToken, SkipSpace;
    var op := Symbol(mode);
    SeeHere(s, p, op);
    assert s[p] == ' ' && s[p + 1] == op[1];
    assert Here(s, p, [' ', op[1]]) by { assert s[p..p + 2] == [' ', op[1]]; }
    SymbolHere(s, i, p, op[1]);
  }

  /** One printed redirection: its two tokens. */
  lemma RedirHere(s: string, i: nat, p: nat, r: RText)
    requires Same(s, i, p) && RTextOk(r) && Here(s, p, Symbol(r.mode) + " " + r.file)
    requires Gap(s, p + |Symbol(r.mode)| + 1 + |r.file|)
    ensures Peek(s, i) == '<' || Peek(s, i) == '>'
    ensures var t := GetToken(s, i);
            var w := GetToken(s, t.pos);
            && w.tok == 'a' && RedirIs(s, Redirection(w.span, ModeOf(t.tok).0, ModeOf(t.tok).1), r)
            && Same(s, w.pos, p + |Symbol(r.mode)| + 1 + |r.file|)
  {
    hide GetToken, SkipSpace, Peek, ModeOf;
    var op := Symbol(r.mode);
    assert op + " " + r.file == op + (" " + r.file);
    HereParts(s, p, op, " " + r.file);
    assert At(s, p + |op|) == ' ' by { SeeHere(s, p + |op|, " " + r.file); }
    OpHere(s, i, p, r.mode);
    WordHere(s, GetToken(s, i).pos, p + |op|, r.file);
  }

  lemma {:induction false} RedirsHere(s: string, i: nat, p: nat, rs: seq<RText>)
    requires Same(s, i, p) && Here(s, p, RedirText(rs)) && forall k | 0 <= k < |rs| :: RTextOk(rs[k])
    requires var k := p + |RedirText(rs)|; Gap(s, k) && Peek(s, k) != '<' && Peek(s, k) != '>'
    ensures var r := ParseRedirs(s, i); r.Ok? && RedirsAre(s, r.value, rs) && Same(s, r.pos, p + |RedirText(rs)|)
    decreases |rs|
  {
    hide GetToken, SkipSpace, ModeOf, RTextOk, Symbol;
    SkipTwice(s, i);
    if rs == [] {
      assert ParseRedirs(s, i) == Ok([], SkipSpace(s, i));
    } else {
      var op, file, tail := Symbol(rs[0].mode), rs[0].file, RedirText(rs[1..]);
      assert RTextOk(rs[0]);
      assert RedirText(rs) == (op + " " + file) + tail;
      HereParts(s, p, op + " " + file, tail);
      var k := p + |op| + 1 + |file|;
      TextStarts(rs[1..]);
      GapBefore(s, k, tail);
      var j := SkipSpace(s, i);
      RedirHere(s, j, p, rs[0]);
      var w := GetToken(s, GetToken(s, j).pos);
      RedirsHere(s, w.pos, k, rs[1..]);
    }
  }

  lemma TextStarts(rs: seq<RText>)
    ensures var t := RedirText(rs); t == [] || t[0] == ' '
  {
  }

  /** Whatever the printer writes, other than nothing, starts with a blank. */
  lemma GapBefore(s: string, k: nat, tail: string)
    requires Here(s, k, tail) && Gap(s, k + |tail|) && (tail == [] || tail[0] == ' ')
    ensures Gap(s, k)
  {
    SeeHere(s, k, tail);
  }

  /** What may follow a command that is part of a pipeline. */
  predicate StopItem(c: char) {
    EndsArgs(c) || c == '\0'
  }

  lemma WordsStart(words: seq<string>, rs: seq<RText>)
    ensures var t := Words(words) + RedirText(rs); t == [] || t[0] == ' '
  {
  }

  /** No redirection where a word comes next. */
  lemma NoRedirs(s: string, i: nat)
    requires i <= |s| && Peek(s, i) != '<' && Peek(s, i) != '>'
    ensures ParseRedirs(s, i) == Ok([], SkipSpace(s, i)) && Same(s, SkipSpace(s, i), i)
  {
    SkipTwice(s, i);
  }

  predicate WordsOk(words: seq<string>) {
    forall k | 0 <= k < |words| :: WordOk(words[k])
  }

  predicate RTextsOk(rs: seq<RText>) {
    forall k | 0 <= k < |rs| :: RTextOk(rs[k])
  }

  ghost predicate ArgsParsed(s: string, r: Result<Args>, words: seq<string>, rs: seq<RText>, k: nat) {
    r.Ok? && Texts(s, r.value.words) == words && RedirsAre(s, r.value.redirs, rs) && Same(s, r.pos, k)
  }

  lemma NoArgs(s: string, i: nat, p: nat, argc: nat)
    requires Same(s, i, p) && StopItem(Peek(s, p))
    ensures ArgsParsed(s, ParseArgs(s, i, argc), [], [], p)
  {
    SkipTwice(s, i);
  }

  lemma TextsCons(s: string, w: Span, ws: seq<Span>)
    ensures Texts(s, [w] + ws) == [Text(s, w)] + Texts(s, ws)
  {
  }

  lemma RedirsJoin(s: string, a: seq<Redirection>, b: seq<Redirection>, ra: seq<RText>, rb: seq<RText>)
    requires RedirsAre(s, a, ra) && RedirsAre(s, b, rb)
    ensures RedirsAre(s, a + b, ra + rb)
  {
  }

  /** The next word is read. */
  lemma FirstArg(s: string, i: nat, p: nat, w: string)
    requires Same(s, i, p) && Here(s, p, " " + w) && WordOk(w) && Gap(s, p + 1 + |w|)
    ensures var j := SkipSpace(s, i); !EndsArgs(At(s, j))
    ensures var t := GetToken(s, SkipSpace(s, i)); t.tok == 'a' && Text(s, t.span) == w && Same(s, t.pos, p + 1 + |w|)
    ensures Peek(s, i) != '<' && Peek(s, i) != '>' && Peek(s, i) != '('
  {
    hide GetToken, SkipSpace;
    SkipTwice(s, i);
    WordHere(s, i, p, w);
    WordHere(s, SkipSpace(s, i), p, w);
  }

  /** One step of the loop of parseexec. */
  lemma ArgsStep(s: string, i: nat, argc: nat, w: string, ws: seq<string>, ra: seq<RText>, rb: seq<RText>, k: nat)
    requires i <= |s| && !EndsArgs(At(s, SkipSpace(s, i))) && argc + 1 < MAXARGS
    requires var t := GetToken(s, SkipSpace(s, i));
             && t.tok == 'a' && Text(s, t.span) == w
             && var r := ParseRedirs(s, t.pos);
                r.Ok? && RedirsAre(s, r.value, ra) && ArgsParsed(s, ParseArgs(s, r.pos, argc + 1), ws, rb, k)
    ensures ArgsParsed(s, ParseArgs(s, i, argc), [w] + ws, ra + rb, k)
  {
    hide GetToken, SkipSpace, RedirsAre, Texts, ParseRedirs;
    var t := GetToken(s, SkipSpace(s, i));
    var r := ParseRedirs(s, t.pos);
    var rest := ParseArgs(s, r.pos, argc + 1);
    TextsCons(s, t.span, rest.value.words);
    RedirsJoin(s, r.value, rest.value.redirs, ra, rb);
  }

  function ArgText(words: seq<string>, rs: seq<RText>): string {
    Words(words) + RedirText(rs)
  }

  lemma ArgTextCons(words: seq<string>, rs: seq<RText>)
    requires words != []
    ensures var tail := ArgText(words[1..], rs);
            ArgText(words, rs) == (" " + words[0]) + tail && (tail == [] || tail[0] == ' ')
  {
    WordsStart(words[1..], rs);
  }

  /** The first of the printed words, and what is printed behind it. */
  lemma FirstOfWords(s: string, i: nat, p: nat, words: seq<string>, rs: seq<RText>)
    requires Same(s, i, p) && words != [] && WordsOk(words)
    requires Here(s, p, ArgText(words, rs)) && Gap(s, p + |ArgText(words, rs)|)
    ensures var k := p + 1 + |words[0]|;
            Here(s, k, ArgText(words[1..], rs)) && p + |ArgText(words, rs)| == k + |ArgText(words[1..], rs)|
    ensures var j := SkipSpace(s, i); !EndsArgs(At(s, j))
    ensures var t := GetToken(s, SkipSpace(s, i));
      t.tok == 'a' && Text(s, t.span) == words[0] && Same(s, t.pos, p + 1 + |words[0]|)
    ensures Peek(s, i) != '<' && Peek(s, i) != '>' && Peek(s, i) != '('
  {
    hide GetToken, SkipSpace, Peek, WordOk, EndsArgs, ArgText, Here, Gap, At, Text, Same;
    var w, tail := words[0], ArgText(words[1..], rs);
    assert WordOk(w);
    ArgTextCons(words, rs);
    HereParts(s, p, " " + w, tail);
    GapBefore(s, p + 1 + |w|, tail);
    FirstArg(s, i, p, w);
  }

  /** Printed words, with all redirections behind the last of them. */
  lemma {:induction false} ArgsHere(s: string, i: nat, p: nat, words: seq<string>, rs: seq<RText>, argc: nat)
    requires Same(s, i, p) && Here(s, p, ArgText(words, rs)) && WordsOk(words) && RTextsOk(rs)
    requires argc + |words| < MAXARGS && (words == [] ==> rs == [])
    requires var k := p + |ArgText(words, rs)|; Gap(s, k) && StopItem(Peek(s, k))
    ensures ArgsParsed(s, ParseArgs(s, i, argc), words, rs, p + |ArgText(words, rs)|)
    decreases |words|
  {
    hide GetToken, SkipSpace, RTextOk, WordOk, Texts, RedirsAre, ParseRedirs, ParseArgs, ArgsParsed, RedirText, Words,
      Peek, Here, Gap, At, ArgText;
    EmptyText();
    if words == [] {
      NoArgs(s, i, p, argc);
    } else {
      var w, rest := words[0], words[1..];
      var k, end := p + 1 + |w|, p + |ArgText(words, rs)|;
      FirstOfWords(s, i, p, words, rs);
      var t := GetToken(s, SkipSpace(s, i));
      assert [w] + rest == words && rs + [] == rs && [] + rs == rs && WordsOk(rest);
      if rest == [] {
        OnlyRedirs(rs);
        RedirsHere(s, t.pos, k, rs);
        NoArgs(s, ParseRedirs(s, t.pos).pos, end, argc + 1);
        ArgsStep(s, i, argc, w, rest, rs, [], end);
      } else {
        FirstOfWords(s, t.pos, k, rest, rs);
        NoRedirs(s, t.pos);
        ArgsHere(s, SkipSpace(s, t.pos), k, rest, rs, argc + 1);
        EmptyRedirs(s);
        ArgsStep(s, i, argc, w, rest, [], rs, end);
      }
    }
  }

  lemma OnlyRedirs(rs: seq<RText>)
    ensures ArgText([], rs) == RedirText(rs)
  {
  }

  lemma EmptyText()
    ensures ArgText([], []) == []
  {
  }

  lemma EmptyRedirs(s: string)
    ensures RedirsAre(s, [], [])
  {
  }

  // ---- A command with its redirections ----

  function Size(t: Tree): nat {
    match t
    case TExec(_) => 1
    case TRedir(c, _, _, _) => 1 + Size(c)
    case TPipe(l, r) => 1 + Size(l) + Size(r)
    case TList(l, r) => 1 + Size(l) + Size(r)
    case TBack(c) => 1 + Size(c)
  }

  /** What the redirections of t are around. */
  function Base(t: Tree): (b: Tree)
    ensures !b.TRedir? && Size(b) <= Size(t) && (t.TRedir? ==> Size(b) < Size(t))
  {
    if t.TRedir? then Base(t.tree) else t
  }

  /** The redirections of t, innermost first. */
  function RedirsOf(t: Tree): seq<RText> {
    if t.TRedir? then RedirsOf(t.tree) + [RText(t.file, t.mode, t.fd)] else []
  }

  function Wrapped(t: Tree, rs: seq<RText>): Tree
    decreases |rs|
  {
    if rs == [] then t else Wrapped(TRedir(t, rs[0].file, rs[0].mode, rs[0].fd), rs[1..])
  }

  lemma {:induction false} WrappedLast(t: Tree, rs: seq<RText>, r: RText)
    ensures Wrapped(t, rs + [r]) == TRedir(Wrapped(t, rs), r.file, r.mode, r.fd)
    decreases |rs|
  {
    if rs != [] {
      assert (rs + [r])[1..] == rs[1..] + [r];
      WrappedLast(TRedir(t, rs[0].file, rs[0].mode, rs[0].fd), rs[1..], r);
    }
  }

  lemma {:induction false} RedirTextLast(rs: seq<RText>, r: RText)
    ensures RedirText(rs + [r]) == RedirText(rs) + (Symbol(r.mode) + " " + r.file)
  {
    if rs == [] {
      assert rs + [r] == [r];
    } else {
      assert (rs + [r])[1..] == rs[1..] + [r];
      RedirTextLast(rs[1..], r);
    }
  }

  lemma {:induction false} Chain(t: Tree)
    requires TreeOk(t)
    ensures Wrapped(Base(t), RedirsOf(t)) == t && TreeOk(Base(t)) && RTextsOk(RedirsOf(t))
    ensures Print(t, 0) == Print(Base(t), 0) + RedirText(RedirsOf(t))
  {
    if t.TRedir? {
      Chain(t.tree);
      var r := RText(t.file, t.mode, t.fd);
      WrappedLast(Base(t.tree), RedirsOf(t.tree), r);
      RedirTextLast(RedirsOf(t.tree), r);
    }
  }

  lemma {:induction false} WrapTree(s: string, cmd: Cmd, redirs: seq<Redirection>, rs: seq<RText>)
    requires RedirsAre(s, redirs, rs)
    ensures TreeOf(s, Wrap(cmd, redirs)) == Wrapped(TreeOf(s, cmd), rs)
    decreases |rs|
  {
    if rs != [] {
      assert RedirIs(s, redirs[0], rs[0]);
      WrapTree(s, Redir(cmd, redirs[0].file, redirs[0].mode, redirs[0].fd), redirs[1..], rs[1..]);
    }
  }

  /** The parser has read tree t, up to k. */
  ghost predicate Parsed(s: string, r: Result<Cmd>, t: Tree, k: nat) {
    r.Ok? && TreeOf(s, r.value) == t && Same(s, r.pos, k)
  }

  lemma SamePeek(s: string, i: nat, p: nat)
    requires Same(s, i, p)
    ensures Peek(s, i) == Peek(s, p) && Same(s, SkipSpace(s, i), p) && Peek(s, i) == At(s, SkipSpace(s, i))
  {
    SkipTwice(s, i);
  }

  /** Words and redirections. */
  lemma SimpleHere(s: string, i: nat, p: nat, words: seq<string>, rs: seq<RText>)
    requires Same(s, i, p) && Here(s, p, ArgText(words, rs)) && WordsOk(words) && RTextsOk(rs) && |words| < MAXARGS
    requires var k := p + |ArgText(words, rs)|; Gap(s, k) && StopItem(Peek(s, k))
    ensures Parsed(s, ParseExec(s, i), Wrapped(TExec(words), rs), p + |ArgText(words, rs)|)
  {
    hide GetToken, SkipSpace, Peek, RTextOk, WordOk, Texts, RedirsAre, ParseRedirs, ParseArgs, ArgText, Here, Gap,
      Wrap, Wrapped, At;
    var j, k := SkipSpace(s, i), p + |ArgText(words, rs)|;
    SamePeek(s, i, p);
    EmptyRedirs(s);
    EmptyText();
    assert rs + [] == rs;
    if words != [] {
      FirstOfWords(s, i, p, words, rs);
      SamePeek(s, j, i);
      NoRedirs(s, j);
      ArgsHere(s, ParseRedirs(s, j).pos, p, words, rs, 0);
      var args := ParseArgs(s, ParseRedirs(s, j).pos, 0);
      assert [] + args.value.redirs == args.value.redirs;
      WrapTree(s, Exec(args.value.words), args.value.redirs, rs);
    } else {
      OnlyRedirs(rs);
      NoParen(s, i, p, rs);
      RedirsHere(s, j, p, rs);
      var before := ParseRedirs(s, j);
      NoArgs(s, before.pos, k, 0);
      var args := ParseArgs(s, before.pos, 0);
      RedirsJoin(s, before.value, args.value.redirs, rs, []);
      WrapTree(s, Exec(args.value.words), before.value + args.value.redirs, rs);
    }
  }

  lemma NoParen(s: string, i: nat, p: nat, rs: seq<RText>)
    requires Same(s, i, p) && Here(s, p, RedirText(rs)) && RTextsOk(rs)
    requires var k := p + |RedirText(rs)|; Gap(s, k) && StopItem(Peek(s, k))
    ensures Peek(s, i) != '('
  {
    hide GetToken, SkipSpace, ModeOf, RTextOk, Symbol, RedirIs;
    if rs != [] {
      var text, tail := Symbol(rs[0].mode) + " " + rs[0].file, RedirText(rs[1..]);
      assert RTextOk(rs[0]);
      assert RedirText(rs) == text + tail;
      HereParts(s, p, text, tail);
      TextStarts(rs[1..]);
      GapBefore(s, p + |text|, tail);
      RedirHere(s, i, p, rs[0]);
    }
  }
}
