/** Parsing undoes printing, for every command tree. */
module ShellRoundTrip {
  import opened ShellSyntax
  import opened ShellPrinter

  predicate StopPipe(c: char) {
    c == ')' || c == '&' || c == ';' || c == '\0'
  }

  predicate StopLine(c: char) {
    c == ')' || c == '\0'
  }

  /** The printed text of t for the level is at p, and what follows it is at k. */
  predicate PrintedAt(s: string, i: nat, p: nat, t: Tree, level: nat, k: nat) {
    && Same(s, i, p) && TreeOk(t) && Here(s, p, Print(t, level)) && k == p + |Print(t, level)| && Gap(s, k)
  }

  /** A symbol that the printer wrote behind a tree. */
  lemma SymbolAfter(s: string, k: nat, c: char)
    requires Here(s, k, [' ', c]) && IsSymbol(c)
    ensures Gap(s, k) && Peek(s, k) == c
  {
    SymbolHere(s, k, k, c);
    SeeHere(s, k, [' ', c]);
  }

  /** The symbol's token. */
  lemma SymbolToken(s: string, i: nat, k: nat, c: char)
    requires Same(s, i, k) && Here(s, k, [' ', c]) && IsSymbol(c) && c != '>'
    ensures Peek(s, i) == c && i < GetToken(s, i).pos <= |s| && Same(s, GetToken(s, i).pos, k + 2)
    ensures At(s, SkipSpace(s, i)) == c && Same(s, GetToken(s, SkipSpace(s, i)).pos, k + 2)
  {
    SkipTwice(s, i);
    SymbolHere(s, i, k, c);
    SymbolHere(s, SkipSpace(s, i), k, c);
  }

  lemma ExecDone(s: string, i: nat, p: nat, t: Tree, k: nat)
    requires PrintedAt(s, i, p, t, 0, k) && StopItem(Peek(s, k)) && Base(t).TExec?
    ensures Parsed(s, ParseExec(s, i), t, k)
  {
    hide ParseExec, Peek, SkipSpace, Here, Same;
    Chain(t);
    var words, rs := Base(t).words, RedirsOf(t);
    assert Print(Base(t), 0) == Words(words);
    assert Print(t, 0) == ArgText(words, rs);
    SimpleHere(s, i, p, words, rs);
  }

  /** A command in parentheses, once its inside is read. */
  lemma BlockDone(s: string, i: nat, p: nat, b: Tree, rs: seq<RText>, k1: nat)
    requires Same(s, i, p) && Here(s, p, " (") && Here(s, k1, " )" + RedirText(rs)) && RTextsOk(rs)
    requires Parsed(s, ParseLine(s, GetToken(s, SkipSpace(s, i)).pos), b, k1)
    requires var k := k1 + 2 + |RedirText(rs)|; Gap(s, k) && StopItem(Peek(s, k))
    ensures Parsed(s, ParseExec(s, i), Wrapped(b, rs), k1 + 2 + |RedirText(rs)|)
  {
    hide GetToken, SkipSpace, RTextOk, ParseRedirs, ParseLine, RedirsAre, RedirText, Wrap, Wrapped, Gap, At, Peek;
    assert " (" == [' ', '('] && " )" == [' ', ')'];
    SymbolToken(s, i, p, '(');
    var j := SkipSpace(s, i);
    SamePeek(s, i, p);
    SamePeek(s, j, p);
    HereParts(s, k1, " )", RedirText(rs));
    var body := ParseLine(s, GetToken(s, j).pos);
    SymbolToken(s, body.pos, k1, ')');
    RedirsHere(s, GetToken(s, body.pos).pos, k1 + 2, rs);
    WrapTree(s, body.value, ParseRedirs(s, GetToken(s, body.pos).pos).value, rs);
  }

  lemma {:induction false} ExecHere(s: string, i: nat, p: nat, t: Tree, k: nat)
    requires PrintedAt(s, i, p, t, 0, k) && StopItem(Peek(s, k))
    ensures Parsed(s, ParseExec(s, i), t, k)
    decreases Size(t), if Level(t) > 0 then 4 else 0
  {
    hide GetToken, SkipSpace, ParseExec, ParseLine, Peek, Wrapped, Parsed, RTextOk, RedirText, Here, Same, At;
    var b, rs := Base(t), RedirsOf(t);
    if b.TExec? {
      ExecDone(s, i, p, t, k);
    } else {
      Chain(t);
      var k1 := p + 2 + |Bare(b)|;
      BlockText(s, p, t);
      SymbolToken(s, i, p, '(');
      SymbolAfter(s, k1, ')');
      LineHere(s, GetToken(s, SkipSpace(s, i)).pos, p + 2, b, k1);
      BlockDone(s, i, p, b, rs, k1);
    }
  }

  lemma BlockPrinted(t: Tree)
    requires TreeOk(t) && !Base(t).TExec?
    ensures Print(t, 0) == " (" + (Bare(Base(t)) + (" )" + RedirText(RedirsOf(t))))
  {
    Chain(t);
    assert Print(Base(t), 0) == " (" + Bare(Base(t)) + " )";
  }

  lemma BlockText(s: string, p: nat, t: Tree)
    requires TreeOk(t) && Here(s, p, Print(t, 0)) && !Base(t).TExec?
    ensures var k1, tail := p + 2 + |Bare(Base(t))|, " )" + RedirText(RedirsOf(t));
            && Here(s, p, [' ', '(']) && Here(s, p + 2, Bare(Base(t))) && Here(s, k1, [' ', ')']) && Here(s, k1, tail)
            && p + |Print(t, 0)| == k1 + |tail|
  {
    hide RedirText, Print, Bare, Here, TreeOk, RedirsOf;
    BlockPrinted(t);
    var inner, tail := Bare(Base(t)), " )" + RedirText(RedirsOf(t));
    HereParts(s, p, " (", inner + tail);
    HereParts(s, p + 2, inner, tail);
    HereParts(s, p + 2 + |inner|, " )", RedirText(RedirsOf(t)));
    assert " (" == [' ', '('] && " )" == [' ', ')'];
  }

  lemma {:induction false} PipeHere(s: string, i: nat, p: nat, t: Tree, k: nat)
    requires PrintedAt(s, i, p, t, 1, k) && StopPipe(Peek(s, k))
    ensures Parsed(s, ParsePipe(s, i), t, k)
    decreases Size(t), if Level(t) > 1 then 5 else 1
  {
    hide GetToken, SkipSpace, ParseExec, Peek, At;
    if !t.TPipe? {
      ExecHere(s, i, p, t, k);
      SamePeek(s, ParseExec(s, i).pos, k);
    } else {
      var l, r := Print(t.left, 0), Print(t.right, 1);
      assert Print(t, 1) == l + (" |" + r);
      HereParts(s, p, l, " |" + r);
      var m := p + |l|;
      HereParts(s, m, " |", r);
      assert " |" == [' ', '|'];
      SymbolAfter(s, m, '|');
      ExecHere(s, i, p, t.left, m);
      var left := ParseExec(s, i);
      SymbolToken(s, left.pos, m, '|');
      PipeHere(s, GetToken(s, SkipSpace(s, left.pos)).pos, m + 2, t.right, k);
    }
  }

  /** The part of parseline before the semicolon: after reading t, the parser is in the loop over &. */
  lemma {:induction false} BackHere(s: string, i: nat, p: nat, t: Tree, k: nat) returns (cmd: Cmd, pos: nat)
    requires PrintedAt(s, i, p, t, 2, k) && StopPipe(Peek(s, k))
    ensures var first := ParsePipe(s, i);
            first.Ok? && Same(s, pos, k) && TreeOf(s, cmd) == t
              && Backs(s, first.value, first.pos) == Backs(s, cmd, pos)
    decreases Size(t), if Level(t) > 2 then 6 else 2
  {
    hide GetToken, SkipSpace, ParsePipe, Peek, At;
    if !t.TBack? {
      PipeHere(s, i, p, t, k);
      cmd, pos := ParsePipe(s, i).value, ParsePipe(s, i).pos;
    } else {
      var c := Print(t.tree, 2);
      assert Print(t, 2) == c + " &";
      HereParts(s, p, c, " &");
      var m := p + |c|;
      assert " &" == [' ', '&'];
      SymbolAfter(s, m, '&');
      var cmd1, pos1 := BackHere(s, i, p, t.tree, m);
      SymbolToken(s, pos1, m, '&');
      cmd, pos := Back(cmd1), GetToken(s, SkipSpace(s, pos1)).pos;
    }
  }

  lemma BacksStop(s: string, cmd: Cmd, i: nat)
    requires i <= |s| && Peek(s, i) != '&'
    ensures Backs(s, cmd, i) == Ok(cmd, SkipSpace(s, i))
  {
  }

  lemma {:induction false} LineHere(s: string, i: nat, p: nat, t: Tree, k: nat)
    requires PrintedAt(s, i, p, t, 3, k) && StopLine(Peek(s, k))
    ensures Parsed(s, ParseLine(s, i), t, k)
    decreases Size(t), 3
  {
    hide GetToken, SkipSpace, ParsePipe, Peek, At, Backs;
    if !t.TList? {
      var cmd, pos := BackHere(s, i, p, t, k);
      SamePeek(s, pos, k);
      BacksStop(s, cmd, pos);
      SamePeek(s, SkipSpace(s, pos), k);
    } else {
      var l, r := Print(t.left, 2), Print(t.right, 3);
      assert Print(t, 3) == l + (" ;" + r);
      HereParts(s, p, l, " ;" + r);
      var m := p + |l|;
      HereParts(s, m, " ;", r);
      assert " ;" == [' ', ';'];
      SymbolAfter(s, m, ';');
      var cmd, pos := BackHere(s, i, p, t.left, m);
      SamePeek(s, pos, m);
      BacksStop(s, cmd, pos);
      var q := SkipSpace(s, pos);
      SymbolToken(s, q, m, ';');
      LineHere(s, GetToken(s, SkipSpace(s, q)).pos, m + 2, t.right, k);
    }
  }

  /** Printing a tree and parsing the text gives the tree back. */
  lemma PrintThenParse(t: Tree)
    requires TreeOk(t)
    ensures var s := Print(t, 3); var r := ParseCmd(s); r.Ok? && TreeOf(s, r.value) == t
  {
    hide ParseLine, SkipSpace;
    var s := Print(t, 3);
    assert s[0..|s|] == s;
    assert Peek(s, |s|) == '\0' && SkipSpace(s, |s|) == |s| by { AtEnd(s); }
    LineHere(s, 0, 0, t, |s|);
  }

  lemma AtEnd(s: string)
    ensures SkipSpace(s, |s|) == |s| && Peek(s, |s|) == '\0'
  {
  }
}
