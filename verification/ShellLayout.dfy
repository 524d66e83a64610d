/** How commands may be laid out (user/sh.c): any white space around tokens, none needed
    beside a symbol. Whatever the layout, the parser finds the same tokens, and every
    input is some layout of its tokens. */
module ShellLayout {
  import opened ShellSyntax
  import opened ShellPrinter
  import opened ShellTokens
  import opened ShellGrammar
  import opened ShellWords

  const WHITE := " \t\r\n\U{000B}"
  const SYMBOLS := "<|>&;()"

  /** Tokens with the white space before each of them and at the end. */
  datatype Layout = Last(gap: string) | Next(gap: string, tok: Tok, more: Layout)

  predicate Blank(gap: string) {
    forall k | 0 <= k < |gap| :: gap[k] in WHITE
  }

  /** A character that can be part of a word. */
  predicate Plain(c: char) {
    c !in WHITE && c !in SYMBOLS && c != '\0'
  }

  predicate TokOk(t: Tok) {
    match t
    case Word(w) => w != [] && forall k | 0 <= k < |w| :: Plain(w[k])
    case Sym(c) => c in SYMBOLS || c == '+'
  }

  /** Written without a gap, the two tokens would read as something else. */
  predicate Clash(t: Tok, u: Tok) {
    (t.Word? && u.Word?) || (t == Sym('>') && (u == Sym('>') || u == Sym('+')))
  }

  predicate LayoutOk(l: Layout) {
    match l
    case Last(gap) => Blank(gap)
    case Next(gap, t, more) =>
      Blank(gap) && TokOk(t) && LayoutOk(more) && (more.Next? && Clash(t, more.tok) ==> more.gap != [])
  }

  function Spell(t: Tok): string {
    match t case Word(w) => w case Sym(c) => if c == '+' then ">>" else [c]
  }

  function TextOf(l: Layout): string {
    match l
    case Last(gap) => gap
    case Next(gap, t, more) => gap + Spell(t) + TextOf(more)
  }

  function TokensOf(l: Layout): Tokens {
    match l case Last(_) => End case Next(_, t, more) => More(t, TokensOf(more))
  }

  // ---- Characters ----

  lemma SpaceIsWhite(c: char)
    ensures IsSpace(c) <==> c in WHITE
  {
    assert WHITE[0] == ' ' && WHITE[1] == '\t' && WHITE[2] == '\r' && WHITE[3] == '\n' && WHITE[4] == '\U{000B}';
  }

  lemma SymbolIsSymbol(c: char)
    ensures IsSymbol(c) <==> c in SYMBOLS
  {
    assert SYMBOLS[0] == '<' && SYMBOLS[1] == '|' && SYMBOLS[2] == '>' && SYMBOLS[3] == '&';
    assert SYMBOLS[4] == ';' && SYMBOLS[5] == '(' && SYMBOLS[6] == ')';
  }

  lemma PlainIsWordChar(c: char)
    ensures Plain(c) <==> IsWordChar(c) && c != '\0'
  {
    SpaceIsWhite(c);
    SymbolIsSymbol(c);
  }

  // ---- The tokens of a layout ----

  /** White space up to j, and something else there. */
  lemma {:induction false} Skips(s: string, i: nat, j: nat)
    requires i <= j <= |s| && Blank(s[i..j]) && (j < |s| ==> s[j] !in WHITE)
    ensures SkipSpace(s, i) == j
    decreases j - i
  {
    if i < j {
      assert s[i..j][0] == s[i] && s[i..j][1..] == s[i + 1..j];
      SpaceIsWhite(s[i]);
      Skips(s, i + 1, j);
    } else if j < |s| {
      SpaceIsWhite(s[j]);
    }
  }

  /** The parts of a text that is a gap, a token and more. */
  lemma Pieces(s: string, i: nat, l: Layout)
    requires i <= |s| && l.Next? && s[i..] == TextOf(l)
    ensures var j := i + |l.gap|;
            var e := j + |Spell(l.tok)|;
            e <= |s| && s[i..j] == l.gap && s[j..e] == Spell(l.tok) && s[e..] == TextOf(l.more)
  {
    var g, t, m := l.gap, Spell(l.tok), TextOf(l.more);
    var j, e := i + |l.gap|, i + |l.gap| + |t|;
    assert s[i..] == g + t + m;
    assert |s[i..]| == |g| + |t| + |m|;
    assert s[i..][..|g|] == g && s[i..][|g|..|g| + |t|] == t && s[i..][|g| + |t|..] == m;
    assert s[i..j] == s[i..][..|g|] && s[j..e] == s[i..][|g|..|g| + |t|] && s[e..] == s[i..][|g| + |t|..];
  }

  /** The first character of what is behind a token: none, white, or the start of a token. */
  lemma FirstOf(s: string, e: nat, l: Layout)
    requires e <= |s| && s[e..] == TextOf(l) && LayoutOk(l)
    ensures e == |s| <==> TextOf(l) == []
    ensures e < |s| ==> s[e] in WHITE || (l.Next? && l.gap == [] && s[e] == Spell(l.tok)[0])
    ensures l.Next? && l.gap == [] ==> e < |s|
  {
    if e < |s| {
      assert s[e] == s[e..][0];
      if l.Next? && l.gap == [] { assert TextOf(l)[0] == Spell(l.tok)[0]; } else { assert TextOf(l)[0] == l.gap[0]; }
    }
  }

  lemma FirstChar(t: Tok)
    requires TokOk(t)
    ensures var c := Spell(t)[0]; c !in WHITE && c != '\0' && (c in SYMBOLS <==> t.Sym?)
    ensures t == Sym('>') || t == Sym('+') <==> Spell(t)[0] == '>'
  {
    var c := Spell(t)[0];
    SpaceIsWhite(c);
    SymbolIsSymbol(c);
    if t.Word? { assert Plain(t.text[0]); }
  }

  /** The next token is the layout's. */
  lemma NextToken(s: string, i: nat, l: Layout)
    requires i <= |s| && l.Next? && LayoutOk(l) && s[i..] == TextOf(l)
    ensures var t := GetToken(s, i);
            var e := i + |l.gap| + |Spell(l.tok)|;
            t.tok != '\0' && TokOf(s, t) == l.tok && e <= |s| && t.pos == SkipSpace(s, e) && s[e..] == TextOf(l.more)
  {
    hide SkipSpace, WordEnd, LayoutOk, TextOf, Blank, Plain;
    assert Blank(l.gap) && TokOk(l.tok) && LayoutOk(l.more) by { Unfold(l); }
    Pieces(s, i, l);
    var j := i + |l.gap|;
    var e := j + |Spell(l.tok)|;
    FirstChar(l.tok);
    assert s[j] == s[j..e][0];
    Skips(s, i, j);
    SymbolIsSymbol(s[j]);
    if l.tok.Word? {
      WordToken(s, j, e, l);
    } else {
      SymbolToken(s, j, e, l);
    }
  }

  lemma Unfold(l: Layout)
    requires LayoutOk(l) && l.Next?
    ensures Blank(l.gap) && TokOk(l.tok) && LayoutOk(l.more)
    ensures l.more.Next? && Clash(l.tok, l.more.tok) ==> l.more.gap != []
  {
  }

  lemma WordToken(s: string, j: nat, e: nat, l: Layout)
    requires l.Next? && LayoutOk(l) && l.tok.Word? && j <= e <= |s| && s[j..e] == l.tok.text && s[e..] == TextOf(l.more)
    ensures WordEnd(s, j) == e && Text(s, Span(j, e)) == l.tok.text
  {
    hide SkipSpace, WordEnd, LayoutOk, TextOf;
    Unfold(l);
    forall k | j <= k < e ensures IsWordChar(s[k]) {
      assert s[k] == s[j..e][k - j] && Plain(s[k]);
      PlainIsWordChar(s[k]);
    }
    FirstOf(s, e, l.more);
    if e < |s| {
      SpaceIsWhite(s[e]);
      SymbolIsSymbol(s[e]);
      if s[e] !in WHITE {
        Unfold(l.more);
        FirstChar(l.more.tok);
      }
    }
    WordEndIs(s, j, e);
  }

  lemma SymbolToken(s: string, j: nat, e: nat, l: Layout)
    requires l.Next? && LayoutOk(l) && l.tok.Sym? && j <= e <= |s| && s[j..e] == Spell(l.tok)
      && s[e..] == TextOf(l.more)
    ensures s[j] == (if l.tok.c == '+' then '>' else l.tok.c)
    ensures s[j] == '>' ==> (At(s, j + 1) == '>' <==> l.tok.c == '+')
  {
    hide SkipSpace, WordEnd, LayoutOk, TextOf;
    Unfold(l);
    assert forall k | 0 <= k < e - j :: s[j + k] == s[j..e][k];
    FirstOf(s, e, l.more);
    if l.tok.c == '>' && e < |s| && s[e] == '>' {
      SpaceIsWhite('>');
      Unfold(l.more);
      FirstChar(l.more.tok);
    }
    SymbolIsSymbol('+');
  }

  lemma {:induction false} LexLaid(s: string, i: nat, l: Layout)
    requires i <= |s| && LayoutOk(l) && s[i..] == TextOf(l)
    ensures Lex(s, i) == TokensOf(l)
    decreases l
  {
    hide SkipSpace, GetToken, TextOf, LayoutOk;
    match l
    case Last(gap) =>
      LastGap(s, i, gap);
    case Next(gap, t, more) =>
      NextToken(s, i, l);
      Unfold(l);
      var e := i + |gap| + |Spell(t)|;
      LexLaid(s, e, more);
      LexSkip(s, e);
  }

  lemma LastGap(s: string, i: nat, gap: string)
    requires i <= |s| && LayoutOk(Last(gap)) && s[i..] == TextOf(Last(gap))
    ensures GetToken(s, i).tok == '\0'
  {
    hide SkipSpace;
    assert s[i..|s|] == s[i..];
    Skips(s, i, |s|);
  }

  // ---- Every input is a layout of its tokens ----

  lemma {:induction false} SkippedIsBlank(s: string, i: nat)
    requires i <= |s|
    ensures Blank(s[i..SkipSpace(s, i)])
    decreases |s| - i
  {
    if i < |s| && IsSpace(s[i]) {
      SpaceIsWhite(s[i]);
      SkippedIsBlank(s, i + 1);
      var g := s[i..SkipSpace(s, i)];
      assert g == [s[i]] + s[i + 1..SkipSpace(s, i)];
    }
  }

  /** The token at the cursor, its spelling and its end. */
  lemma TokenSpelled(s: string, i: nat)
    requires i <= |s| && CString(s) && GetToken(s, i).tok != '\0'
    ensures var t := GetToken(s, i);
            && t.span.q == SkipSpace(s, i) && t.pos == SkipSpace(s, t.span.eq)
            && TokOk(TokOf(s, t)) && s[t.span.q..t.span.eq] == Spell(TokOf(s, t))
  {
    hide SkipSpace, WordEnd;
    var t := GetToken(s, i);
    if t.tok == 'a' {
      TokenIsWord(s, i);
      forall k | 0 <= k < |Text(s, t.span)| ensures Plain(Text(s, t.span)[k]) { PlainIsWordChar(s[t.span.q + k]); }
    } else {
      SymbolIsSymbol(s[t.span.q]);
    }
  }

  /** Where two tokens stand side by side, they do not clash. */
  lemma NoClash(s: string, i: nat)
    requires i <= |s| && CString(s) && GetToken(s, i).tok != '\0'
    ensures var t := GetToken(s, i);
            var u := GetToken(s, t.span.eq);
            u.tok != '\0' && Clash(TokOf(s, t), TokOf(s, u)) ==> SkipSpace(s, t.span.eq) != t.span.eq
  {
    hide SkipSpace, WordEnd;
    var t := GetToken(s, i);
    var u := GetToken(s, t.span.eq);
    if u.tok != '\0' {
      TokenSpelled(s, t.span.eq);
      if t.tok == 'a' { TokenIsWord(s, i); }
      if u.tok == 'a' { TokenIsWord(s, t.span.eq); }
    }
  }

  lemma {:induction false} LaidOut(s: string, i: nat) returns (l: Layout)
    requires i <= |s| && CString(s)
    ensures LayoutOk(l) && TextOf(l) == s[i..] && TokensOf(l) == Lex(s, i)
    ensures l.gap == s[i..SkipSpace(s, i)]
      && (l.Next? ==> GetToken(s, i).tok != '\0' && l.tok == TokOf(s, GetToken(s, i)))
    decreases |s| - i
  {
    hide SkipSpace, GetToken, Clash, TokOk, Spell, Blank;
    SkippedIsBlank(s, i);
    PeekLeads(s, i);
    var t := GetToken(s, i);
    if t.tok == '\0' {
      l := Last(s[i..]);
      assert s[i..|s|] == s[i..];
    } else {
      TokenSpelled(s, i);
      var q, e := t.span.q, t.span.eq;
      var more := LaidOut(s, e);
      NoClash(s, i);
      l := Next(s[i..q], TokOf(s, t), more);
      LexSkip(s, e);
      assert s[i..] == s[i..q] + s[q..e] + s[e..];
    }
  }

  // ---- The language ----

  /** The round trip for every layout: a sentence of the grammar parses to its meaning,
      whatever white space it is written with. */
  lemma EveryLayoutParses(f: Form, l: Layout)
    requires FormOk(f) && LayoutOk(l) && TokensOf(l) == Toks(f, End)
    ensures var s := TextOf(l); var r := ParseCmd(s); r.Ok? && TreeOf(s, r.value) == Meaning(f)
  {
    hide Lex, ParseCmd, WholeLine, LayoutOk;
    var s := TextOf(l);
    assert s[0..] == s;
    TextIsCString(l);
    LexLaid(s, 0, l);
    AcceptsExactly(Lex(s, 0), Meaning(f));
    OnlyTokensMatter(s);
  }

  /** Layouts have no NUL in them. */
  lemma {:induction false} TextIsCString(l: Layout)
    requires LayoutOk(l)
    ensures CString(TextOf(l))
  {
    assert '\0' !in WHITE by { SpaceIsWhite('\0'); }
    assert '\0' !in SYMBOLS by { SymbolIsSymbol('\0'); }
    if l.Next? {
      TextIsCString(l.more);
      SpellIsCString(l.tok);
    }
  }

  lemma SpellIsCString(t: Tok)
    requires TokOk(t)
    ensures CString(Spell(t))
  {
    SymbolIsSymbol('\0');
    if t.Word? {
      forall k | 0 <= k < |t.text| ensures t.text[k] != '\0' { assert Plain(t.text[k]); }
    }
  }

  /** The language of the shell: an input is accepted with a tree if and only if it is a
      layout of a sentence that stands for the tree. */
  lemma LanguageExactly(s: string, t: Tree)
    requires CString(s)
    ensures (ParseCmd(s).Ok? && TreeOf(s, ParseCmd(s).value) == t) <==>
            exists f, l :: FormOk(f) && LayoutOk(l) && TokensOf(l) == Toks(f, End) && TextOf(l) == s && Meaning(f) == t
  {
    hide Lex, ParseCmd, WholeLine, LayoutOk, FormOk, Toks, Meaning, TokensOf, TextOf;
    if ParseCmd(s).Ok? && TreeOf(s, ParseCmd(s).value) == t {
      OnlyTokensMatter(s);
      AcceptsExactly(Lex(s, 0), t);
      var f :| FormOk(f) && Toks(f, End) == Lex(s, 0) && Meaning(f) == t;
      var l := LaidOut(s, 0);
      assert s[0..] == s;
    }
    forall f, l | FormOk(f) && LayoutOk(l) && TokensOf(l) == Toks(f, End) && TextOf(l) == s && Meaning(f) == t
      ensures ParseCmd(s).Ok? && TreeOf(s, ParseCmd(s).value) == t
    {
      EveryLayoutParses(f, l);
    }
  }

  /** No word of an accepted command has white space or a symbol in it, and none can be
      made longer. */
  lemma WordsArePlain(s: string, w: Span)
    requires CString(s) && ParseCmd(s).Ok? && w in WordsOf(ParseCmd(s).value)
    ensures w.q < w.eq <= |s| && forall k | w.q <= k < w.eq :: s[k] !in WHITE && s[k] !in SYMBOLS
    ensures w.eq < |s| ==> s[w.eq] in WHITE || s[w.eq] in SYMBOLS
  {
    hide ParseLine;
    var cmd := ParseCmd(s).value;
    ParsedLine(s, 0);
    EndsAreEnds(s, cmd);
    forall k | w.q <= k < w.eq ensures s[k] !in WHITE && s[k] !in SYMBOLS { PlainIsWordChar(s[k]); }
    if w.eq < |s| { PlainIsWordChar(s[w.eq]); }
  }
}
