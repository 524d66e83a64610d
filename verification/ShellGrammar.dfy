/** The shell's command language as a grammar over tokens (user/sh.c), with redirections
    before, between and behind the words of a command. The parser accepts exactly the
    sentences of the grammar and gives each its meaning. */
module ShellGrammar {
  import opened ShellSyntax
  import opened ShellPrinter
  import opened ShellTokens

  /** The words and redirections of a command, in any order. */
  datatype Parts = Nothing | AWord(text: string, more: Parts) | ARedir(redir: RText, more: Parts)

  /** A sentence as it is written. */
  datatype Form =
    | Simple(parts: Parts)
    | Group(line: Form, redirs: seq<RText>)
    | Piped(left: Form, right: Form)
    | Amp(form: Form)
    | Listed(left: Form, right: Form)

  function Rank(f: Form): nat {
    match f case Simple(_) => 0 case Group(_, _) => 0 case Piped(_, _) => 1 case Amp(_) => 2 case Listed(_, _) => 3
  }

  function WordsIn(parts: Parts): seq<string> {
    match parts
    case Nothing => []
    case AWord(w, more) => [w] + WordsIn(more)
    case ARedir(_, more) => WordsIn(more)
  }

  function RedirsIn(parts: Parts): seq<RText> {
    match parts
    case Nothing => []
    case AWord(_, more) => RedirsIn(more)
    case ARedir(r, more) => [r] + RedirsIn(more)
  }

  /** A redirection of the file descriptor the language can name. */
  predicate FdOk(r: RText) {
    r.fd == FdOf(r.mode)
  }

  predicate FdsOk(rs: seq<RText>) {
    forall k | 0 <= k < |rs| :: FdOk(rs[k])
  }

  predicate PartsOk(parts: Parts) {
    match parts
    case Nothing => true
    case AWord(_, more) => PartsOk(more)
    case ARedir(r, more) => FdOk(r) && PartsOk(more)
  }

  /** Pipes bind tightest, then &, then semicolons; pipes and semicolons group to the
      right; a command has less than MAXARGS words. */
  predicate FormOk(f: Form) {
    match f
    case Simple(parts) => |WordsIn(parts)| < MAXARGS && PartsOk(parts)
    case Group(line, redirs) => FormOk(line) && FdsOk(redirs)
    case Piped(l, r) => FormOk(l) && FormOk(r) && Rank(l) == 0 && Rank(r) <= 1
    case Amp(c) => FormOk(c) && Rank(c) <= 2
    case Listed(l, r) => FormOk(l) && FormOk(r) && Rank(l) <= 2
  }

  function ModeSym(mode: Mode): Tok {
    match mode case ReadOnly => Sym('<') case Truncate => Sym('>') case Append => Sym('+')
  }

  function RedirToks(rs: seq<RText>, rest: Tokens): Tokens {
    if rs == [] then rest else More(ModeSym(rs[0].mode), More(Word(rs[0].file), RedirToks(rs[1..], rest)))
  }

  function PartToks(parts: Parts, rest: Tokens): Tokens {
    match parts
    case Nothing => rest
    case AWord(w, more) => More(Word(w), PartToks(more, rest))
    case ARedir(r, more) => More(ModeSym(r.mode), More(Word(r.file), PartToks(more, rest)))
  }

  /** How the sentence is written, with the rest behind it. */
  function Toks(f: Form, rest: Tokens): Tokens {
    match f
    case Simple(parts) => PartToks(parts, rest)
    case Group(line, redirs) => More(Sym('('), Toks(line, More(Sym(')'), RedirToks(redirs, rest))))
    case Piped(l, r) => Toks(l, More(Sym('|'), Toks(r, rest)))
    case Amp(c) => Toks(c, More(Sym('&'), rest))
    case Listed(l, r) => Toks(l, More(Sym(';'), Toks(r, rest)))
  }

  /** The command it stands for: redirections go around the command in the order written. */
  function Meaning(f: Form): Tree {
    match f
    case Simple(parts) => Wrapped(TExec(WordsIn(parts)), RedirsIn(parts))
    case Group(line, redirs) => Wrapped(Meaning(line), redirs)
    case Piped(l, r) => TPipe(Meaning(l), Meaning(r))
    case Amp(c) => TBack(Meaning(c))
    case Listed(l, r) => TList(Meaning(l), Meaning(r))
  }

  // ---- Every sentence is accepted, with its meaning ----

  /** What may follow a command, a pipeline and a line. */
  predicate AfterCommand(rest: Tokens) {
    rest == End || Stops(rest.first)
  }

  predicate AfterPipeline(rest: Tokens) {
    rest == End || Starts(rest, ')') || Starts(rest, '&') || Starts(rest, ';')
  }

  predicate AfterLine(rest: Tokens) {
    rest == End || Starts(rest, ')')
  }

  lemma OneRedirRead(r: RText, rest: Tokens)
    requires FdOk(r)
    ensures var ts := More(ModeSym(r.mode), More(Word(r.file), rest));
            var more := Redirs(rest);
            Redirs(ts) == if more.Failed? then more else Read([r] + more.value, more.rest)
  {
  }

  lemma {:induction false} RedirsRead(rs: seq<RText>, rest: Tokens)
    requires FdsOk(rs) && (rest == End || !IsRedir(rest.first))
    ensures Redirs(RedirToks(rs, rest)) == Read(rs, rest)
    decreases |rs|
  {
    hide ModeSym, FdOk;
    if rs != [] {
      assert FdOk(rs[0]);
      RedirsRead(rs[1..], rest);
      OneRedirRead(rs[0], RedirToks(rs[1..], rest));
      assert [rs[0]] + rs[1..] == rs;
    }
  }

  /** The redirections that come first, and what is behind them. */
  function LeadRedirs(parts: Parts): seq<RText> {
    if parts.ARedir? then [parts.redir] + LeadRedirs(parts.more) else []
  }

  function Behind(parts: Parts): (r: Parts)
    ensures !r.ARedir? && (parts.AWord? ==> r == parts)
  {
    if parts.ARedir? then Behind(parts.more) else parts
  }

  function Size(parts: Parts): nat {
    match parts case Nothing => 0 case AWord(_, more) => 1 + Size(more) case ARedir(_, more) => 1 + Size(more)
  }

  lemma {:induction false} LeadParts(parts: Parts)
    ensures RedirsIn(parts) == LeadRedirs(parts) + RedirsIn(Behind(parts))
    ensures WordsIn(parts) == WordsIn(Behind(parts)) && Size(Behind(parts)) <= Size(parts)
    ensures PartsOk(parts) ==> PartsOk(Behind(parts))
  {
    if parts.ARedir? {
      LeadParts(parts.more);
      Assoc([parts.redir], LeadRedirs(parts.more), RedirsIn(Behind(parts)));
    } else {
      assert [] + RedirsIn(parts) == RedirsIn(parts);
    }
  }

  lemma Assoc(a: seq<RText>, b: seq<RText>, c: seq<RText>)
    ensures a + (b + c) == (a + b) + c
  {
  }

  lemma {:induction false} LeadRead(parts: Parts, rest: Tokens)
    requires PartsOk(parts) && AfterCommand(rest)
    ensures Redirs(PartToks(parts, rest)) == Read(LeadRedirs(parts), PartToks(Behind(parts), rest))
  {
    hide ModeSym, FdOk;
    if parts.ARedir? {
      LeadRead(parts.more, rest);
      OneRedirRead(parts.redir, PartToks(parts.more, rest));
    }
  }

  lemma {:induction false} PartsRead(parts: Parts, rest: Tokens, argc: nat)
    requires argc + |WordsIn(parts)| < MAXARGS && PartsOk(parts) && AfterCommand(rest) && !parts.ARedir?
    ensures Arguments(PartToks(parts, rest), argc) == Read(Items(WordsIn(parts), RedirsIn(parts)), rest)
    decreases Size(parts)
  {
    hide Redirs, LeadRedirs, Behind;
    if parts.AWord? {
      LeadRead(parts.more, rest);
      LeadParts(parts.more);
      PartsRead(Behind(parts.more), rest, argc + 1);
    }
  }

  lemma SimpleRead(parts: Parts, rest: Tokens)
    requires FormOk(Simple(parts)) && AfterCommand(rest)
    ensures Command(PartToks(parts, rest)) == Read(Meaning(Simple(parts)), rest)
  {
    hide Redirs, Arguments, Wrapped, LeadRedirs, Behind;
    LeadRead(parts, rest);
    LeadParts(parts);
    PartsRead(Behind(parts), rest, 0);
    assert !Starts(PartToks(parts, rest), '(');
  }

  lemma {:induction false} CommandRead(f: Form, rest: Tokens)
    requires FormOk(f) && Rank(f) == 0 && AfterCommand(rest)
    ensures Command(Toks(f, rest)) == Read(Meaning(f), rest)
    decreases f, 0
  {
    hide Line, Redirs, Wrapped;
    match f
    case Simple(parts) => SimpleRead(parts, rest);
    case Group(line, redirs) =>
      LineRead(line, More(Sym(')'), RedirToks(redirs, rest)));
      RedirsRead(redirs, rest);
  }

  lemma {:induction false} PipelineRead(f: Form, rest: Tokens)
    requires FormOk(f) && Rank(f) <= 1 && AfterPipeline(rest)
    ensures Pipeline(Toks(f, rest)) == Read(Meaning(f), rest)
    decreases f, 1
  {
    hide Command;
    if f.Piped? {
      CommandRead(f.left, More(Sym('|'), Toks(f.right, rest)));
      PipelineRead(f.right, rest);
    } else {
      CommandRead(f, rest);
    }
  }

  /** Behind a pipeline and its ampersands. */
  lemma {:induction false} AmpRead(f: Form, rest: Tokens)
    requires FormOk(f) && Rank(f) <= 2 && AfterPipeline(rest)
    ensures var first := Pipeline(Toks(f, rest));
            first.Read? && Ampersands(first.value, first.rest) == Ampersands(Meaning(f), rest)
    decreases f, 2
  {
    hide Pipeline;
    if f.Amp? {
      AmpRead(f.form, More(Sym('&'), rest));
    } else {
      PipelineRead(f, rest);
    }
  }

  lemma {:induction false} LineRead(f: Form, rest: Tokens)
    requires FormOk(f) && AfterLine(rest)
    ensures Line(Toks(f, rest)) == Read(Meaning(f), rest)
    decreases f, 3
  {
    hide Pipeline;
    if f.Listed? {
      AmpRead(f.left, More(Sym(';'), Toks(f.right, rest)));
      LineRead(f.right, rest);
    } else {
      AmpRead(f, rest);
    }
  }

  // ---- Nothing else is accepted ----

  lemma {:induction false} RedirsWritten(ts: Tokens)
    requires Redirs(ts).Read?
    ensures var r := Redirs(ts); FdsOk(r.value) && ts == RedirToks(r.value, r.rest)
    decreases Count(ts)
  {
    if ts != End && IsRedir(ts.first) {
      assert Count(ts) == 1 + Count(ts.rest);
      RedirsWritten(ts.rest.rest);
      assert Redirs(ts).value[1..] == Redirs(ts.rest.rest).value;
    }
  }

  /** Redirections, then the parts. */
  function Before(rs: seq<RText>, parts: Parts): Parts {
    if rs == [] then parts else ARedir(rs[0], Before(rs[1..], parts))
  }

  lemma {:induction false} BeforeToks(rs: seq<RText>, parts: Parts, rest: Tokens)
    ensures PartToks(Before(rs, parts), rest) == RedirToks(rs, PartToks(parts, rest))
    decreases |rs|
  {
    if rs != [] { BeforeToks(rs[1..], parts, rest); }
  }

  lemma {:induction false} BeforeParts(rs: seq<RText>, parts: Parts)
    ensures WordsIn(Before(rs, parts)) == WordsIn(parts) && RedirsIn(Before(rs, parts)) == rs + RedirsIn(parts)
    ensures FdsOk(rs) && PartsOk(parts) ==> PartsOk(Before(rs, parts))
    decreases |rs|
  {
    hide FdOk;
    if rs == [] {
      assert rs + RedirsIn(parts) == RedirsIn(parts);
    } else {
      BeforeParts(rs[1..], parts);
      Assoc([rs[0]], rs[1..], RedirsIn(parts));
      assert rs == [rs[0]] + rs[1..];
    }
  }

  lemma {:induction false} PartsWritten(ts: Tokens, argc: nat) returns (parts: Parts)
    requires Arguments(ts, argc).Read? && argc < MAXARGS
    ensures var r := Arguments(ts, argc);
            && ts == PartToks(parts, r.rest) && WordsIn(parts) == r.value.words && RedirsIn(parts) == r.value.redirs
            && argc + |WordsIn(parts)| < MAXARGS && PartsOk(parts)
    decreases Count(ts)
  {
    hide Redirs, Before, RedirToks;
    if ts == End || Stops(ts.first) {
      parts := Nothing;
    } else {
      RedirsWritten(ts.rest);
      var redirs := Redirs(ts.rest);
      var more := PartsWritten(redirs.rest, argc + 1);
      BeforeToks(redirs.value, more, Arguments(redirs.rest, argc + 1).rest);
      BeforeParts(redirs.value, more);
      parts := AWord(ts.first.text, Before(redirs.value, more));
    }
  }

  lemma {:induction false} CommandWritten(ts: Tokens) returns (f: Form)
    requires Command(ts).Read?
    ensures FormOk(f) && Rank(f) == 0 && ts == Toks(f, Command(ts).rest) && Meaning(f) == Command(ts).value
    decreases Count(ts), 1
  {
    hide Redirs, Arguments, Line, Wrapped, Before;
    if Starts(ts, '(') {
      var line := LineWritten(ts.rest);
      var body := Line(ts.rest);
      RedirsWritten(body.rest.rest);
      f := Group(line, Redirs(body.rest.rest).value);
    } else {
      RedirsWritten(ts);
      var before := Redirs(ts);
      var parts := PartsWritten(before.rest, 0);
      BeforeToks(before.value, parts, Arguments(before.rest, 0).rest);
      BeforeParts(before.value, parts);
      f := Simple(Before(before.value, parts));
    }
  }

  lemma {:induction false} PipelineWritten(ts: Tokens) returns (f: Form)
    requires Pipeline(ts).Read?
    ensures FormOk(f) && Rank(f) <= 1 && ts == Toks(f, Pipeline(ts).rest) && Meaning(f) == Pipeline(ts).value
    decreases Count(ts), 2
  {
    hide Command;
    var left := CommandWritten(ts);
    f := left;
    if Starts(Command(ts).rest, '|') {
      var right := PipelineWritten(Command(ts).rest.rest);
      f := Piped(left, right);
    }
  }

  lemma {:induction false} AmpsWritten(f: Form, ts: Tokens) returns (f': Form)
    requires FormOk(f) && Rank(f) <= 2
    ensures var r := Ampersands(Meaning(f), ts);
            FormOk(f') && Rank(f') <= 2 && Toks(f, ts) == Toks(f', r.rest) && Meaning(f') == r.value
    decreases ts
  {
    f' := f;
    if Starts(ts, '&') { f' := AmpsWritten(Amp(f), ts.rest); }
  }

  lemma {:induction false} LineWritten(ts: Tokens) returns (f: Form)
    requires Line(ts).Read?
    ensures FormOk(f) && ts == Toks(f, Line(ts).rest) && Meaning(f) == Line(ts).value
    decreases Count(ts), 3
  {
    hide Pipeline, Ampersands;
    var g := PipelineWritten(ts);
    var first := Pipeline(ts);
    var left := AmpsWritten(g, first.rest);
    f := left;
    var amps := Ampersands(first.value, first.rest);
    if Starts(amps.rest, ';') {
      var right := LineWritten(amps.rest.rest);
      f := Listed(left, right);
    }
  }

  /** The parser accepts exactly the sentences of the grammar, with their meaning. */
  lemma AcceptsExactly(ts: Tokens, t: Tree)
    ensures WholeLine(ts) == Read(t, End) <==> exists f :: FormOk(f) && Toks(f, End) == ts && Meaning(f) == t
  {
    hide Line, Toks, Meaning, FormOk;
    if WholeLine(ts) == Read(t, End) {
      var f := LineWritten(ts);
    }
    forall f | FormOk(f) && Toks(f, End) == ts && Meaning(f) == t ensures WholeLine(ts) == Read(t, End) {
      LineRead(f, End);
    }
  }
}
