/** The shell's parser (user/sh.c) as it runs: a cursor that moves over the input
    buffer, and NULs written into that buffer at the end. */
module Shell {
  import opened ShellSyntax
  import opened ShellPrinter
  import opened ShellWords

  datatype Outcome<T> = Done(value: T) | Panicked(why: Panic)

  /** The method's outcome and final cursor are what the function says. */
  predicate Agrees<T(==)>(r: Outcome<T>, pos: nat, f: Result<T>) {
    match f
    case Ok(v, p) => r == Done(v) && pos == p
    case Err(why) => r == Panicked(why)
  }

  class Parser {
    const buf: array<char>
    var ps: nat
    ghost const s: string

    ghost predicate Valid()
      reads this, buf
    {
      buf.Length == |s| + 1 && buf[..] == s + "\0" && ps <= |s|
    }

    constructor (buf: array<char>, ghost s: string)
      requires buf[..] == s + "\0"
      ensures Valid() && this.buf == buf && this.s == s && ps == 0
    {
      this.buf, this.s, this.ps := buf, s, 0;
      new;
      assert buf.Length == |buf[..]|;
    }

    /** The character under p. */
    function Char(p: nat): (c: char)
      requires Valid() && p <= |s|
      reads this, buf
      ensures c == At(s, p)
    {
      assert buf[p] == buf[..][p];
      buf[p]
    }

    /** Past white space, up to the end of the input. */
    method Skip(p: nat) returns (j: nat)
      requires Valid() && p <= |s|
      ensures j == SkipSpace(s, p)
    {
      j := p;
      while j < buf.Length - 1 && IsSpace(Char(j))
        invariant p <= j <= |s| && SkipSpace(s, p) == SkipSpace(s, j)
      {
        j := j + 1;
      }
    }

    method Gettoken() returns (tok: char, span: Span)
      requires Valid()
      modifies `ps
      ensures Valid() && GetToken(s, old(ps)) == Token(tok, span, ps)
    {
      var p := Skip(ps);
      var q := p;
      tok := Char(p);
      if tok == '\0' {
      } else if tok == '>' {
        p := p + 1;
        if Char(p) == '>' {
          tok := '+';
          p := p + 1;
        }
      } else if IsSymbol(tok) {
        p := p + 1;
      } else {
        tok := 'a';
        while p < buf.Length - 1 && IsWordChar(Char(p))
          invariant q <= p <= |s| && WordEnd(s, q) == WordEnd(s, p)
        {
          p := p + 1;
        }
      }
      span := Span(q, p);
      ps := Skip(p);
    }

    /** Move to the next character that is not white space: is it one of toks? */
    method PeekFor(toks: string) returns (b: bool)
      requires Valid()
      modifies `ps
      ensures Valid() && ps == SkipSpace(s, old(ps)) && b == (At(s, ps) != '\0' && At(s, ps) in toks)
    {
      ps := Skip(ps);
      b := Char(ps) != '\0' && Char(ps) in toks;
    }

    method Parseredirs() returns (r: Outcome<seq<Redirection>>)
      requires Valid()
      modifies `ps
      ensures Valid() && Agrees(r, ps, ParseRedirs(s, old(ps)))
    {
      hide SkipSpace, GetToken;
      var redirs := [];
      ghost var at := ps;
      var more := PeekFor("<>");
      PrefixNone(ParseRedirs(s, at));
      while more
        invariant Valid() && at <= |s| && ps == SkipSpace(s, at) && more == (At(s, ps) == '<' || At(s, ps) == '>')
        invariant ParseRedirs(s, old(ps)) == Prefixed(redirs, ParseRedirs(s, at))
        decreases |s| - at
      {
        ghost var before := ps;
        var tok, _ := Gettoken();
        var word, file := Gettoken();
        if word != 'a' { return Panicked(MissingFile); }
        var mode, fd := ModeOf(tok).0, ModeOf(tok).1;
        RedirToken(s, before);
        PrefixMore(redirs, Redirection(file, mode, fd), ParseRedirs(s, ps));
        redirs := redirs + [Redirection(file, mode, fd)];
        at := ps;
        more := PeekFor("<>");
      }
      assert redirs + [] == redirs;
      return Done(redirs);
    }

    /** parseexec builds the redirections around the command while it still fills in
        the arguments; here they are put together at the end. */
    method Parseexec() returns (r: Outcome<Cmd>)
      requires Valid()
      modifies `ps
      ensures Valid() && Agrees(r, ps, ParseExec(s, old(ps)))
      decreases |s| - ps, 1
    {
      hide SkipSpace, GetToken, ParseRedirs, ParseArgs, ParseBlock;
      SkipTwice(s, ps);
      var block := PeekFor("(");
      if block {
        r := Parseblock();
        return;
      }
      var before := Parseredirs();
      if before.Panicked? { return Panicked(before.why); }
      var args := Parseargs();
      if args.Panicked? { return Panicked(args.why); }
      return Done(Wrap(Exec(args.value.words), before.value + args.value.redirs));
    }

    /** The loop of parseexec. */
    method Parseargs() returns (r: Outcome<Args>)
      requires Valid()
      modifies `ps
      ensures Valid() && Agrees(r, ps, ParseArgs(s, old(ps), 0))
    {
      hide SkipSpace, GetToken, ParseRedirs;
      var words, redirs := [], [];
      ghost var at := ps;
      var end := PeekFor("|)&;");
      PrefixNoArgs(ParseArgs(s, at, 0));
      while !end
        invariant Valid() && at <= |s| && ps == SkipSpace(s, at) && end == EndsArgs(At(s, ps)) && |words| < MAXARGS
        invariant ParseArgs(s, old(ps), 0) == PrefixedArgs(words, redirs, ParseArgs(s, at, |words|))
        decreases |s| - at
      {
        var tok, word := Gettoken();
        if tok == '\0' {
          assert words + [] == words && redirs + [] == redirs;
          return Done(Args(words, redirs));
        }
        if tok != 'a' { return Panicked(Syntax); }
        if |words| + 1 >= MAXARGS { return Panicked(TooManyArgs); }
        var more := Parseredirs();
        if more.Panicked? { return Panicked(more.why); }
        PrefixMoreArgs(words, redirs, word, more.value, ParseArgs(s, ps, |words| + 1));
        words, redirs := words + [word], redirs + more.value;
        at := ps;
        end := PeekFor("|)&;");
      }
      assert words + [] == words && redirs + [] == redirs;
      return Done(Args(words, redirs));
    }

    method Parseblock() returns (r: Outcome<Cmd>)
      requires Valid() && Peek(s, ps) == '('
      modifies `ps
      ensures Valid() && Agrees(r, ps, ParseBlock(s, old(ps)))
      decreases |s| - ps, 0
    {
      hide ParseRedirs, ParseLine;
      var _, _ := Gettoken();
      var body := Parseline();
      if body.Panicked? { return body; }
      SkipTwice(s, ps);
      var close := PeekFor(")");
      if !close { return Panicked(MissingParen); }
      var _, _ := Gettoken();
      var redirs := Parseredirs();
      if redirs.Panicked? { return Panicked(redirs.why); }
      return Done(Wrap(body.value, redirs.value));
    }

    method Parsepipe() returns (r: Outcome<Cmd>)
      requires Valid()
      modifies `ps
      ensures Valid() && Agrees(r, ps, ParsePipe(s, old(ps)))
      decreases |s| - ps, 2
    {
      hide ParseExec;
      r := Parseexec();
      if r.Panicked? { return; }
      var more := PeekFor("|");
      if more {
        var _, _ := Gettoken();
        var right := Parsepipe();
        if right.Panicked? { return right; }
        r := Done(Pipe(r.value, right.value));
      }
    }

    method Parseline() returns (r: Outcome<Cmd>)
      requires Valid()
      modifies `ps
      ensures Valid() && Agrees(r, ps, ParseLine(s, old(ps)))
      decreases |s| - ps, 3
    {
      hide ParsePipe;
      r := Parsepipe();
      if r.Panicked? { return; }
      ghost var at := ps;
      var back := PeekFor("&");
      while back
        invariant Valid() && old(ps) <= at <= |s| && ps == SkipSpace(s, at) && back == (At(s, ps) == '&')
        invariant r.Done? && ParsePipe(s, old(ps)).Ok?
        invariant var f := ParsePipe(s, old(ps)); Backs(s, f.value, f.pos) == Backs(s, r.value, at)
        decreases |s| - at
      {
        var _, _ := Gettoken();
        r := Done(Back(r.value));
        at := ps;
        back := PeekFor("&");
      }
      SkipTwice(s, at);
      var list := PeekFor(";");
      if list {
        var _, _ := Gettoken();
        var right := Parseline();
        if right.Panicked? { return right; }
        r := Done(List(r.value, right.value));
      }
    }

    /** nulterminate: puts a NUL behind every word and file name of the command. */
    method Nulterminate(cmd: Cmd)
      requires buf.Length == |s| + 1 && CmdOk(s, cmd)
      modifies buf
      ensures forall k | 0 <= k <= |s| :: buf[k] == if k in Ends(cmd) then '\0' else old(buf[k])
    {
      EndsAreEnds(s, cmd);
      match cmd
      case Exec(args) =>
        var i := 0;
        while i < |args|
          invariant i <= |args|
          invariant forall k | 0 <= k <= |s| :: buf[k] == if Ended(args, i, k) then '\0' else old(buf[k])
        {
          assert IsWord(s, args[i]);
          buf[args[i].eq] := '\0';
          i := i + 1;
        }
      case Redir(c, file, _, _) =>
        Nulterminate(c);
        buf[file.eq] := '\0';
      case Pipe(l, r) => Nulterminate(l); Nulterminate(r);
      case List(l, r) => Nulterminate(l); Nulterminate(r);
      case Back(c) => Nulterminate(c);
    }

    /** parsecmd: the command, with each of its words a C string in the buffer. */
    method Parsecmd() returns (r: Outcome<Cmd>)
      requires Valid() && ps == 0 && CString(s)
      modifies `ps, buf
      ensures match ParseCmd(s) { case Ok(cmd, _) => r == Done(cmd) case Err(why) => r == Panicked(why) }
      ensures r.Done? ==> forall w | w in WordsOf(r.value) :: ReadString(buf[..], w.q) == Text(s, w)
    {
      hide ParseLine, SkipSpace;
      r := Parseline();
      if r.Panicked? { return; }
      var _ := PeekFor("");
      if ps != buf.Length - 1 { return Panicked(Syntax); }
      ParsedLine(s, 0);
      ghost var full := buf[..];
      Nulterminate(r.value);
      forall w | w in WordsOf(r.value) ensures ReadString(buf[..], w.q) == Text(s, w) {
        EachWordReads(s, buf[..], r.value, w);
      }
    }
  }

  /** k is the end of one of the first i words. */
  ghost predicate Ended(args: seq<Span>, i: nat, k: nat) {
    exists j :: 0 <= j < i && j < |args| && args[j].eq == k
  }

  lemma PrefixNone(rest: Result<seq<Redirection>>)
    ensures Prefixed([], rest) == rest
  {
    if rest.Ok? { assert [] + rest.value == rest.value; }
  }

  lemma PrefixMore(redirs: seq<Redirection>, x: Redirection, rest: Result<seq<Redirection>>)
    ensures Prefixed(redirs, Prefixed([x], rest)) == Prefixed(redirs + [x], rest)
  {
    if rest.Ok? { assert redirs + ([x] + rest.value) == redirs + [x] + rest.value; }
  }

  function PrefixedArgs(words: seq<Span>, redirs: seq<Redirection>, rest: Result<Args>): Result<Args> {
    if rest.Err? then rest else Ok(Args(words + rest.value.words, redirs + rest.value.redirs), rest.pos)
  }

  lemma PrefixNoArgs(rest: Result<Args>)
    ensures PrefixedArgs([], [], rest) == rest
  {
    if rest.Ok? { assert [] + rest.value.words == rest.value.words && [] + rest.value.redirs == rest.value.redirs; }
  }

  lemma PrefixMoreArgs(words: seq<Span>, redirs: seq<Redirection>, w: Span, more: seq<Redirection>, rest: Result<Args>)
    ensures PrefixedArgs(words, redirs, PrefixedArgs([w], more, rest)) == PrefixedArgs(words + [w], redirs + more, rest)
  {
    if rest.Ok? {
      assert words + ([w] + rest.value.words) == words + [w] + rest.value.words;
      assert redirs + (more + rest.value.redirs) == redirs + more + rest.value.redirs;
    }
  }

  /** The redirections read so far, before those that are still to be read. */
  function Prefixed(redirs: seq<Redirection>, rest: Result<seq<Redirection>>): Result<seq<Redirection>> {
    if rest.Err? then rest else Ok(redirs + rest.value, rest.pos)
  }
}
