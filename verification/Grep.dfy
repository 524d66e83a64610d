/** The pattern matcher of user/grep.c, against the language of a pattern: characters,
    dot, star and a final dollar. */
module Grep {

  datatype Atom = Any | Char(c: char)

  datatype Item = One(atom: Atom) | Star(atom: Atom) | End

  function AtomOf(c: char): Atom {
    if c == '.' then Any else Char(c)
  }

  /** The pattern as a sequence of items. A star applies to the character before it,
      whatever that is, and a dollar means the end of the text only when it is last. */
  function Parse(re: string): seq<Item> {
    if re == "" then []
    else if |re| > 1 && re[1] == '*' then [Star(AtomOf(re[0]))] + Parse(re[2..])
    else if re == "$" then [End]
    else [One(AtomOf(re[0]))] + Parse(re[1..])
  }

  predicate Fits(a: Atom, c: char) {
    a == Any || a.c == c
  }

  predicate AllFit(a: Atom, u: string) {
    forall k | 0 <= k < |u| :: Fits(a, u[k])
  }

  /** The text u, with rest behind it, is in the language of the items. */
  ghost predicate Denotes(items: seq<Item>, u: string, rest: string) {
    if items == [] then u == ""
    else
      match items[0]
      case One(a) => u != "" && Fits(a, u[0]) && Denotes(items[1..], u[1..], rest)
      case Star(a) => exists k: nat :: k <= |u| && AllFit(a, u[..k]) && Denotes(items[1..], u[k..], rest)
      case End => u == "" && rest == "" && Denotes(items[1..], u, rest)
  }

  /** Some prefix of the text is in the language. */
  ghost predicate MatchesPrefix(items: seq<Item>, text: string) {
    exists n: nat :: n <= |text| && Denotes(items, text[..n], text[n..])
  }

  /** What grep promises: the pattern occurs in the text, at its start under ^. */
  ghost predicate Occurs(re: string, text: string) {
    if re != "" && re[0] == '^' then MatchesPrefix(Parse(re[1..]), text)
    else exists i: nat :: i <= |text| && MatchesPrefix(Parse(re), text[i..])
  }

  ghost predicate StarMatches(a: Atom, items: seq<Item>, text: string) {
    exists k: nat :: k <= |text| && AllFit(a, text[..k]) && MatchesPrefix(items, text[k..])
  }

  /** c*re: some of the characters, and re behind them. */
  lemma StarSplits(a: Atom, items: seq<Item>, text: string)
    ensures MatchesPrefix([Star(a)] + items, text) <==> StarMatches(a, items, text)
  {
    var all := [Star(a)] + items;
    assert all[1..] == items;
    if MatchesPrefix(all, text) {
      var n: nat :| n <= |text| && Denotes(all, text[..n], text[n..]);
      var u := text[..n];
      var k: nat :| k <= |u| && AllFit(a, u[..k]) && Denotes(items, u[k..], text[n..]);
      assert u[..k] == text[..k] && u[k..] == text[k..][..n - k] && text[n..] == text[k..][n - k..];
      assert MatchesPrefix(items, text[k..]);
    }
    if StarMatches(a, items, text) {
      var k: nat :| k <= |text| && AllFit(a, text[..k]) && MatchesPrefix(items, text[k..]);
      var m: nat :| m <= |text[k..]| && Denotes(items, text[k..][..m], text[k..][m..]);
      var n := k + m;
      var u := text[..n];
      assert u[..k] == text[..k] && u[k..] == text[k..][..m] && text[n..] == text[k..][m..];
      assert Denotes(all, u, text[n..]);
    }
  }

  /** One character, and the rest behind it. */
  lemma OneSplits(a: Atom, items: seq<Item>, text: string)
    ensures MatchesPrefix([One(a)] + items, text) <==> text != "" && Fits(a, text[0]) && MatchesPrefix(items, text[1..])
  {
    var all := [One(a)] + items;
    assert all[1..] == items;
    if MatchesPrefix(all, text) {
      var n: nat :| n <= |text| && Denotes(all, text[..n], text[n..]);
      assert text[..n][1..] == text[1..][..n - 1] && text[n..] == text[1..][n - 1..];
    }
    if text != "" && Fits(a, text[0]) && MatchesPrefix(items, text[1..]) {
      var m: nat :| m <= |text[1..]| && Denotes(items, text[1..][..m], text[1..][m..]);
      var n := m + 1;
      assert text[..n][1..] == text[1..][..m] && text[n..] == text[1..][m..];
      assert Denotes(all, text[..n], text[n..]);
    }
  }

  lemma EndIsEnd(text: string)
    ensures MatchesPrefix([End], text) <==> text == ""
  {
    if text == "" { assert Denotes([End], text[..0], text[0..]); }
  }

  lemma EmptyMatches(text: string)
    ensures MatchesPrefix([], text)
  {
    assert Denotes([], text[..0], text[0..]);
  }

  // ---- Patterns by their characters ----

  /** The text starts with a match of the pattern. */
  ghost predicate StartsWith(re: string, text: string) {
    MatchesPrefix(Parse(re), text)
  }

  /** A starred character: some of these characters, any at all for a dot, and the rest
      of the pattern behind them. */
  lemma StarMeans(c: char, re: string, text: string)
    ensures StartsWith([c, '*'] + re, text) <==>
            exists k: nat :: k <= |text| && (c == '.' || forall j | 0 <= j < k :: text[j] == c)
              && StartsWith(re, text[k..])
  {
    var all := [c, '*'] + re;
    assert all[2..] == re;
    StarSplits(AtomOf(c), Parse(re), text);
    forall k: nat | k <= |text|
      ensures AllFit(AtomOf(c), text[..k]) <==> (c == '.' || forall j | 0 <= j < k :: text[j] == c)
    {
      if AllFit(AtomOf(c), text[..k]) && c != '.' {
        forall j | 0 <= j < k ensures text[j] == c { assert Fits(AtomOf(c), text[..k][j]); }
      }
    }
  }

  /** Any other character stands for itself, a dot for any character, and a dollar at the
      end for the end of the text. */
  lemma CharMeans(c: char, re: string, text: string)
    requires re == "" || re[0] != '*'
    ensures StartsWith([c] + re, text) <==>
            if c == '$' && re == "" then text == ""
            else text != "" && (c == '.' || text[0] == c) && StartsWith(re, text[1..])
  {
    var all := [c] + re;
    assert all[1..] == re;
    if c == '$' && re == "" {
      assert all == "$";
      EndIsEnd(text);
    } else {
      assert all != "$" by { assert re != "" ==> |all| > 1; assert all[0] == c; }
      assert |all| > 1 ==> all[1] == re[0];
      OneSplits(AtomOf(c), Parse(re), text);
    }
  }

  /** Characters and dots only. */
  predicate Plain(p: string) {
    forall k | 0 <= k < |p| :: p[k] != '*' && p[k] != '$'
  }

  /** p is found at i. */
  predicate FoundAt(p: string, text: string, i: nat) {
    i + |p| <= |text| && forall k | 0 <= k < |p| :: p[k] == '.' || p[k] == text[i + k]
  }

  lemma {:induction false} PlainStarts(p: string, text: string)
    requires Plain(p)
    ensures StartsWith(p, text) <==> FoundAt(p, text, 0)
    ensures StartsWith(p + "$", text) <==> FoundAt(p, text, 0) && |text| == |p|
  {
    if p == "" {
      EmptyMatches(text);
      CharMeans('$', "", text);
      assert p + "$" == ['$'] + "";
    } else {
      var c, q := p[0], p[1..];
      assert p == [c] + q && p + "$" == [c] + (q + "$");
      CharMeans(c, q, text);
      CharMeans(c, q + "$", text);
      if text != "" {
        PlainStarts(q, text[1..]);
        Shifted(p, text);
      }
    }
  }

  lemma Shifted(p: string, text: string)
    requires p != "" && text != ""
    ensures FoundAt(p, text, 0) <==> (p[0] == '.' || p[0] == text[0]) && FoundAt(p[1..], text[1..], 0)
  {
    if (p[0] == '.' || p[0] == text[0]) && FoundAt(p[1..], text[1..], 0) {
      forall k | 0 <= k < |p| ensures p[k] == '.' || p[k] == text[0 + k] {
        if k > 0 { assert p[1..][k - 1] == '.' || p[1..][k - 1] == text[1..][0 + (k - 1)]; }
      }
    }
    if FoundAt(p, text, 0) {
      forall k | 0 <= k < |p[1..]| ensures p[1..][k] == '.' || p[1..][k] == text[1..][0 + k] {
        assert p[k + 1] == '.' || p[k + 1] == text[0 + (k + 1)];
      }
    }
  }

  lemma FoundLater(p: string, text: string, i: nat)
    requires i <= |text|
    ensures FoundAt(p, text[i..], 0) <==> FoundAt(p, text, i)
  {
    if i + |p| <= |text| {
      forall k | 0 <= k < |p| ensures p[k] == text[i..][0 + k] <==> p[k] == text[i + k] {
      }
    }
  }

  /** What grep finds for characters and dots: them anywhere in the text, at its start
      under ^, at its end before $, and as the whole text with both. */
  lemma PlainMeans(p: string, text: string)
    requires Plain(p) && (p == "" || p[0] != '^')
    ensures Occurs(p, text) <==> exists i: nat :: FoundAt(p, text, i)
    ensures Occurs("^" + p, text) <==> FoundAt(p, text, 0)
    ensures Occurs(p + "$", text) <==> |p| <= |text| && FoundAt(p, text, |text| - |p|)
    ensures Occurs("^" + p + "$", text) <==> FoundAt(p, text, 0) && |text| == |p|
  {
    assert ("^" + p)[1..] == p && ("^" + p + "$")[1..] == p + "$" && (p + "$")[0] == if p == "" then '$' else p[0];
    PlainStarts(p, text);
    forall i: nat | i <= |text|
      ensures StartsWith(p, text[i..]) <==> FoundAt(p, text, i)
      ensures StartsWith(p + "$", text[i..]) <==> FoundAt(p, text, i) && |text| == i + |p|
    {
      PlainStarts(p, text[i..]);
      FoundLater(p, text, i);
    }
  }

  /** Search for re at the beginning of text. */
  method Matchhere(re: string, text: string) returns (b: bool)
    ensures b <==> MatchesPrefix(Parse(re), text)
    decreases |re|, 0
  {
    if re == "" {
      EmptyMatches(text);
      return true;
    }
    if |re| > 1 && re[1] == '*' {
      StarSplits(AtomOf(re[0]), Parse(re[2..]), text);
      b := Matchstar(re[0], re[2..], text);
      return;
    }
    if re[0] == '$' && |re| == 1 {
      EndIsEnd(text);
      return text == "";
    }
    OneSplits(AtomOf(re[0]), Parse(re[1..]), text);
    if text != "" && (re[0] == '.' || re[0] == text[0]) {
      b := Matchhere(re[1..], text[1..]);
      return;
    }
    return false;
  }

  /** Search for c*re at the beginning of text. */
  method Matchstar(c: char, re: string, text: string) returns (b: bool)
    ensures b <==> StarMatches(AtomOf(c), Parse(re), text)
    decreases |re|, 1
  {
    var i := 0;
    while true
      invariant 0 <= i <= |text| && AllFit(AtomOf(c), text[..i])
      invariant forall k: nat | k < i :: !MatchesPrefix(Parse(re), text[k..])
      decreases |text| - i
    {
      b := Matchhere(re, text[i..]);
      if b { return; }
      if i == |text| || (text[i] != c && c != '.') {
        assert i < |text| ==> !Fits(AtomOf(c), text[i]);
        forall k: nat | i < k <= |text| ensures !AllFit(AtomOf(c), text[..k]) { assert text[..k][i] == text[i]; }
        return false;
      }
      assert text[..i + 1] == text[..i] + [text[i]];
      i := i + 1;
    }
  }

  /** match: the pattern occurs in the text. */
  method Match(re: string, text: string) returns (b: bool)
    ensures b <==> Occurs(re, text)
  {
    if re != "" && re[0] == '^' {
      b := Matchhere(re[1..], text);
      return;
    }
    var i := 0;
    while true
      invariant 0 <= i <= |text| && forall k: nat | k < i :: !MatchesPrefix(Parse(re), text[k..])
      decreases |text| - i
    {
      b := Matchhere(re, text[i..]);
      if b || i == |text| { return; }
      i := i + 1;
    }
  }
}
