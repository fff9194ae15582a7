/** The textual passes compile every glob to a regular expression for its wildcards, with one exact exception. */
module GlobPasses {
  import opened Options
  import opened Regex
  import opened GlobCompiler
  import opened GlobDialect

  // ---------------------------------------------------------------- what the passes really read

  /**
   The reading the passes amount to. It differs from the greedy one only inside runs of three or more
   stars: the first pass takes the last two stars of a run that a slash follows.
   */
  function Next(g: string): (n: (Tok, nat))
    requires g != ""
    ensures 0 < n.1 <= |g|
  {
    if "**/" <= g then (DeepDir, 3)
    else if "***/" <= g then (Tok.Star, 1)
    else if "**" <= g then (Deep, 2)
    else if g[0] == '*' then (Tok.Star, 1)
    else if g[0] == '?' then (One, 1)
    else (Lit(g[0]), 1)
  }

  function Tokens(g: string): seq<Tok> {
    if g == "" then [] else [Next(g).0] + Tokens(g[Next(g).1..])
  }

  /** The text of one wildcard after the first `stage` passes. */
  function Face(stage: nat, tok: Tok): string {
    match tok
    case Lit(c) => EscapeChar(c)
    case One => if stage >= 4 then "[^/]" else "?"
    case Star => if stage >= 3 then "[^/]*" else "*"
    case Deep => if stage >= 6 then ".*" else if stage >= 2 then STAR_MARK else "**"
    case DeepDir => if stage >= 5 then DIR_REGEX else if stage >= 1 then SLASH_MARK else "**/"
  }

  function Text(stage: nat, toks: seq<Tok>): string {
    if toks == [] then "" else Face(stage, toks[0]) + Text(stage, toks[1..])
  }

  predicate PlainLit(tok: Tok) {
    tok.Lit? ==> tok.c != '*' && tok.c != '?' && tok.c != '\0'
  }

  predicate HeadIs(toks: seq<Tok>, tok: Tok) {
    toks != [] && toks[0] == tok
  }

  /** No wildcard runs into the next one. */
  predicate Spaced(toks: seq<Tok>) {
    toks == [] ||
    var rest := toks[1..];
    && PlainLit(toks[0])
    && (toks[0].Star? ==> !HeadIs(rest, Tok.Star) && !HeadIs(rest, Deep))
    && (toks[0].Deep? ==> !HeadIs(rest, Lit('/')) && !(HeadIs(rest, Tok.Star) && HeadIs(rest[1..], Lit('/'))))
    && Spaced(rest)
  }

  // ---------------------------------------------------------------- reading the glob

  lemma {:induction false} EscapePlain(u: string, rest: string)
    requires forall c <- u :: c !in ESCAPED
    ensures Escape(u + rest) == u + Escape(rest)
  {
    if u == "" {
      assert u + rest == rest;
    } else {
      assert (u + rest)[1..] == u[1..] + rest;
      EscapePlain(u[1..], rest);
    }
  }

  lemma NextText(g: string)
    requires g != ""
    ensures Escape(g) == Face(0, Next(g).0) + Escape(g[Next(g).1..])
  {
    var n := Next(g).1;
    assert g == g[..n] + g[n..];
    if !Next(g).0.Lit? { EscapePlain(g[..n], g[n..]); }
  }

  lemma {:induction false} TokensText(g: string)
    ensures Escape(g) == Text(0, Tokens(g))
  {
    if g != "" {
      NextText(g);
      TokensText(g[Next(g).1..]);
      assert Tokens(g)[1..] == Tokens(g[Next(g).1..]);
    }
  }

  lemma {:induction false} TokensSpaced(g: string)
    requires '\0' !in g
    ensures Spaced(Tokens(g))
  {
    if g != "" {
      var h := g[Next(g).1..];
      TokensSpaced(h);
      assert Tokens(g)[1..] == Tokens(h);
      if Next(g).0.Star? { AfterStar(g); }
      if Next(g).0.Deep? { AfterDeep(g); }
    }
  }

  lemma HeadOf(g: string)
    ensures Tokens(g) != [] <==> g != ""
    ensures g != "" ==> Tokens(g)[0] == Next(g).0 && Tokens(g)[1..] == Tokens(g[Next(g).1..])
  {
  }

  predicate StarAt(g: string, i: nat) {
    i < |g| && g[i] == '*'
  }

  predicate SlashAt(g: string, i: nat) {
    i < |g| && g[i] == '/'
  }

  lemma TwoStars(g: string)
    ensures "**" <= g <==> StarAt(g, 0) && StarAt(g, 1)
  {
    if StarAt(g, 0) && StarAt(g, 1) { assert g[..2] == "**"; }
  }

  lemma StarsSlash(g: string)
    ensures "**/" <= g <==> StarAt(g, 0) && StarAt(g, 1) && SlashAt(g, 2)
  {
    if StarAt(g, 0) && StarAt(g, 1) && SlashAt(g, 2) { assert g[..3] == "**/"; }
  }

  lemma ThreeStarsSlash(g: string)
    ensures "***/" <= g <==> StarAt(g, 0) && StarAt(g, 1) && StarAt(g, 2) && SlashAt(g, 3)
  {
    if StarAt(g, 0) && StarAt(g, 1) && StarAt(g, 2) && SlashAt(g, 3) { assert g[..4] == "***/"; }
  }

  /** The reading, character by character. */
  lemma NextIs(g: string)
    requires g != ""
    ensures Next(g) == if StarAt(g, 0) && StarAt(g, 1) && SlashAt(g, 2) then (DeepDir, 3)
                       else if StarAt(g, 0) && StarAt(g, 1) && StarAt(g, 2) && SlashAt(g, 3) then (Tok.Star, 1)
                       else if StarAt(g, 0) && StarAt(g, 1) then (Deep, 2)
                       else if StarAt(g, 0) then (Tok.Star, 1)
                       else if g[0] == '?' then (One, 1)
                       else (Lit(g[0]), 1)
  {
    TwoStars(g);
    StarsSlash(g);
    ThreeStarsSlash(g);
  }

  lemma AfterStar(g: string)
    requires g != "" && Next(g).0.Star?
    ensures !HeadIs(Tokens(g[1..]), Tok.Star) && !HeadIs(Tokens(g[1..]), Deep)
  {
    var h := g[1..];
    HeadOf(h);
    NextIs(g);
    if h != "" {
      NextIs(h);
      assert forall i: nat :: StarAt(h, i) == StarAt(g, i + 1) && SlashAt(h, i) == SlashAt(g, i + 1);
    }
  }

  lemma AfterDeep(g: string)
    requires g != "" && Next(g).0.Deep?
    ensures var rest := Tokens(g[2..]);
            !HeadIs(rest, Lit('/')) && !(HeadIs(rest, Tok.Star) && HeadIs(rest[1..], Lit('/')))
  {
    var h := g[2..];
    HeadOf(h);
    NextIs(g);
    if h != "" {
      NextIs(h);
      assert forall i: nat :: StarAt(h, i) == StarAt(g, i + 2) && SlashAt(h, i) == SlashAt(g, i + 2);
      if Next(h).0.Star? { SlashNotNext(g, h); }
    }
  }

  lemma SlashNotNext(g: string, h: string)
    requires |g| > 2 && h == g[2..] && Next(h) == (Tok.Star, 1) && !(StarAt(g, 2) && SlashAt(g, 3))
    ensures !HeadIs(Tokens(h)[1..], Lit('/'))
  {
    HeadOf(h);
    var u := h[1..];
    HeadOf(u);
    NextIs(h);
    if u != "" {
      NextIs(u);
      assert u[0] == g[3] && h[0] == g[2];
    }
  }

  // ---------------------------------------------------------------- one replacement pass

  lemma Hit(pat: string, rep: string, rest: string)
    requires pat != ""
    ensures ReplaceAll(pat + rest, pat, rep) == rep + ReplaceAll(rest, pat, rep)
  {
    assert (pat + rest)[|pat|..] == rest;
  }

  lemma Miss(c: char, rest: string, pat: string, rep: string)
    requires pat != "" && !(pat <= [c] + rest)
    ensures ReplaceAll([c] + rest, pat, rep) == [c] + ReplaceAll(rest, pat, rep)
  {
    assert ([c] + rest)[1..] == rest;
  }

  /** Text without the pattern's first character is copied. */
  lemma {:induction false} Skip(u: string, rest: string, pat: string, rep: string)
    requires pat != "" && pat[0] !in u
    ensures ReplaceAll(u + rest, pat, rep) == u + ReplaceAll(rest, pat, rep)
  {
    if u == "" {
      assert u + rest == rest;
    } else {
      assert u + rest == [u[0]] + (u[1..] + rest);
      assert ([u[0]] + (u[1..] + rest))[0] != pat[0];
      Miss(u[0], u[1..] + rest, pat, rep);
      Skip(u[1..], rest, pat, rep);
      assert u == [u[0]] + u[1..];
      assert [u[0]] + (u[1..] + ReplaceAll(rest, pat, rep)) == u + ReplaceAll(rest, pat, rep);
    }
  }

  /** A text whose first character alone starts the pattern, and does not match there, is copied. */
  lemma MissThenSkip(u: string, rest: string, pat: string, rep: string)
    requires pat != "" && u != "" && pat[0] !in u[1..] && !(pat <= u + rest)
    ensures ReplaceAll(u + rest, pat, rep) == u + ReplaceAll(rest, pat, rep)
  {
    assert u + rest == [u[0]] + (u[1..] + rest);
    Miss(u[0], u[1..] + rest, pat, rep);
    Skip(u[1..], rest, pat, rep);
    assert u == [u[0]] + u[1..];
    assert [u[0]] + (u[1..] + ReplaceAll(rest, pat, rep)) == u + ReplaceAll(rest, pat, rep);
  }

  lemma LitFace(c: char)
    requires PlainLit(Lit(c))
    ensures forall x <- EscapeChar(c) :: x != '*' && x != '?' && x != '\0'
    ensures EscapeChar(c) != "" && (EscapeChar(c)[0] == '/' ==> c == '/')
  {
  }

  lemma HeadFace(stage: nat, toks: seq<Tok>)
    requires Spaced(toks) && stage <= 6
    ensures toks != [] ==> Text(stage, toks) != "" && Text(stage, toks)[0] == Face(stage, toks[0])[0]
    ensures toks != [] && Text(stage, toks)[0] == '/' ==> toks[0] == Lit('/')
    ensures stage <= 1 && toks != [] && Text(stage, toks)[0] == '*' ==>
            toks[0].Star? || toks[0].Deep? || (stage == 0 && toks[0].DeepDir?)
  {
    if toks != [] && toks[0].Lit? { LitFace(toks[0].c); }
  }

  lemma {:induction false} Pass1(toks: seq<Tok>)
    requires Spaced(toks)
    ensures ReplaceAll(Text(0, toks), "**/", SLASH_MARK) == Text(1, toks)
  {
    if toks != [] {
      var rest := toks[1..];
      Pass1(rest);
      HeadFace(0, rest);
      match toks[0]
      case Lit(c) => LitFace(c); Skip(EscapeChar(c), Text(0, rest), "**/", SLASH_MARK);
      case One => Skip("?", Text(0, rest), "**/", SLASH_MARK);
      case DeepDir => Hit("**/", SLASH_MARK, Text(0, rest));
      case Star =>
        StarMisses(rest);
        Miss('*', Text(0, rest), "**/", SLASH_MARK);
      case Deep => DeepStays(rest, "**/");
    }
  }

  lemma TwoMisses(t: string, pat: string, rep: string)
    requires pat != "" && !(pat <= ['*'] + (['*'] + t)) && !(pat <= ['*'] + t)
    ensures ReplaceAll("**" + t, pat, rep) == "**" + ReplaceAll(t, pat, rep)
  {
    assert "**" + t == ['*'] + (['*'] + t);
    Miss('*', ['*'] + t, pat, rep);
    Miss('*', t, pat, rep);
    var done := ReplaceAll(t, pat, rep);
    assert ['*'] + (['*'] + done) == "**" + done;
  }

  /** The first pass copies a `**` that no slash follows. */
  lemma DeepStays(rest: seq<Tok>, pat: string)
    requires pat == "**/" && Spaced(rest) && !HeadIs(rest, Lit('/'))
             && !(HeadIs(rest, Tok.Star) && HeadIs(rest[1..], Lit('/')))
    ensures ReplaceAll("**" + Text(0, rest), pat, SLASH_MARK) == "**" + ReplaceAll(Text(0, rest), pat, SLASH_MARK)
  {
    DeepMisses(rest);
    TwoMisses(Text(0, rest), pat, SLASH_MARK);
  }

  lemma NotAt(t: string)
    requires |t| < 3 || t[0] != '*' || t[1] != '*' || t[2] != '/'
    ensures !("**/" <= t)
  {
  }

  lemma StarMisses(rest: seq<Tok>)
    requires Spaced(rest) && !HeadIs(rest, Tok.Star) && !HeadIs(rest, Deep)
    ensures !("**/" <= ['*'] + Text(0, rest))
  {
    HeadFace(0, rest);
    assert rest != [] && rest[0].DeepDir? ==> Text(0, rest)[1] == "**/"[1];
    NotAt(['*'] + Text(0, rest));
  }

  lemma DeepMisses(rest: seq<Tok>)
    requires Spaced(rest) && !HeadIs(rest, Lit('/')) && !(HeadIs(rest, Tok.Star) && HeadIs(rest[1..], Lit('/')))
    ensures !("**/" <= ['*'] + (['*'] + Text(0, rest))) && !("**/" <= ['*'] + Text(0, rest))
  {
    HeadFace(0, rest);
    if rest != [] {
      HeadFace(0, rest[1..]);
      match rest[0]
      case Lit(_) =>
      case One =>
      case Star => assert rest[1..] != [] ==> Text(0, rest)[1] == Text(0, rest[1..])[0];
      case Deep => assert Text(0, rest)[1] == "**"[1];
      case DeepDir => assert Text(0, rest)[1] == "**/"[1];
    }
    NotAt(['*'] + (['*'] + Text(0, rest)));
    NotAt(['*'] + Text(0, rest));
  }

  lemma {:induction false} Pass2(toks: seq<Tok>)
    requires Spaced(toks)
    ensures ReplaceAll(Text(1, toks), "**", STAR_MARK) == Text(2, toks)
  {
    if toks != [] {
      var rest := toks[1..];
      Pass2(rest);
      HeadFace(1, rest);
      match toks[0]
      case Lit(c) => LitFace(c); Skip(EscapeChar(c), Text(1, rest), "**", STAR_MARK);
      case One => Skip("?", Text(1, rest), "**", STAR_MARK);
      case DeepDir => Skip(SLASH_MARK, Text(1, rest), "**", STAR_MARK);
      case Star =>
        assert Text(1, rest) != "" ==> (['*'] + Text(1, rest))[1] == Text(1, rest)[0];
        Miss('*', Text(1, rest), "**", STAR_MARK);
      case Deep => Hit("**", STAR_MARK, Text(1, rest));
    }
  }

  lemma {:induction false} Pass3(toks: seq<Tok>)
    requires Spaced(toks)
    ensures ReplaceAll(Text(2, toks), "*", "[^/]*") == Text(3, toks)
  {
    if toks != [] {
      var rest := toks[1..];
      Pass3(rest);
      if toks[0].Star? {
        Hit("*", "[^/]*", Text(2, rest));
      } else {
        if toks[0].Lit? { LitFace(toks[0].c); }
        Skip(Face(2, toks[0]), Text(2, rest), "*", "[^/]*");
      }
    }
  }

  lemma {:induction false} Pass4(toks: seq<Tok>)
    requires Spaced(toks)
    ensures ReplaceAll(Text(3, toks), "?", "[^/]") == Text(4, toks)
  {
    if toks != [] {
      var rest := toks[1..];
      Pass4(rest);
      if toks[0].One? {
        Hit("?", "[^/]", Text(3, rest));
      } else {
        if toks[0].Lit? { LitFace(toks[0].c); }
        Skip(Face(3, toks[0]), Text(3, rest), "?", "[^/]");
      }
    }
  }

  // ---------------------------------------------------------------- putting the marks back

  const WORD := "SLASHSTAR"

  predicate Spells(toks: seq<Tok>, word: string) {
    |word| <= |toks| && forall i :: 0 <= i < |word| ==> toks[i] == Lit(word[i])
  }

  /** A `**`, then the literal text SLASHSTAR, then another `**` (with or without its slash). */
  predicate TrapHead(toks: seq<Tok>) {
    && toks != [] && toks[0].Deep? && |toks| > 10
    && Spells(toks[1..], WORD) && (toks[10].Deep? || toks[10].DeepDir?)
  }

  predicate Trapped(toks: seq<Tok>) {
    toks != [] && (TrapHead(toks) || Trapped(toks[1..]))
  }

  predicate PlainWord(word: string) {
    forall c <- word :: c != '\0' && c !in ESCAPED
  }

  lemma PlainTail(word: string)
    requires word != "" && PlainWord(word)
    ensures PlainWord(word[1..]) && word[0] != '\0' && EscapeChar(word[0]) == [word[0]]
  {
    assert word[0] in word;
    forall c | c in word[1..] ensures c != '\0' && c !in ESCAPED { assert c in word; }
  }

  lemma PrefixTail(c: char, p: string, t: string)
    requires t != "" && [c] + p <= t
    ensures t[0] == c && p <= t[1..]
  {
    assert t[0] == ([c] + p)[0];
    assert ([c] + p)[1..] == p;
  }

  /** Plain text followed by a mark can only have come from literals followed by a double star. */
  lemma {:induction false} WordRead(toks: seq<Tok>, word: string)
    requires Spaced(toks) && PlainWord(word)
    requires word + "\0" <= Text(4, toks)
    ensures |word| < |toks| && Spells(toks, word) && (toks[|word|].Deep? || toks[|word|].DeepDir?)
    decreases |word|
  {
    HeadFace(4, toks);
    MarkBegins();
    if toks[0].Lit? { LitFace(toks[0].c); }
    if word == "" {
      assert Text(4, toks)[0] == '\0';
    } else {
      PlainTail(word);
      assert word + "\0" == [word[0]] + (word[1..] + "\0");
      PrefixTail(word[0], word[1..] + "\0", Text(4, toks));
      FaceOfPlain(toks, word[0]);
      WordRead(toks[1..], word[1..]);
      SpellsMore(toks, word);
    }
  }

  lemma MarkBegins()
    ensures STAR_MARK[0] == '\0' && SLASH_MARK[0] == '\0' && "[^/]"[0] == '[' && "[^/]*"[0] == '['
  {
  }

  /** Text that starts with a plain character starts with that literal. */
  lemma FaceOfPlain(toks: seq<Tok>, c: char)
    requires toks != [] && Spaced(toks) && c != '\0' && c !in ESCAPED && Text(4, toks) != "" && Text(4, toks)[0] == c
    ensures toks[0] == Lit(c) && Text(4, toks)[1..] == Text(4, toks[1..])
  {
    HeadFace(4, toks);
    MarkBegins();
    if toks[0].Lit? { LitFace(toks[0].c); }
    assert toks[0].Lit?;
    assert Face(4, toks[0]) == [c];
  }

  lemma SpellsMore(toks: seq<Tok>, word: string)
    requires word != "" && toks != [] && toks[0] == Lit(word[0]) && Spells(toks[1..], word[1..])
    ensures Spells(toks, word)
  {
    forall i | 0 <= i < |word| ensures toks[i] == Lit(word[i]) {
      if i > 0 { assert toks[1..][i - 1] == Lit(word[1..][i - 1]); }
    }
  }

  lemma {:induction false} WordText(toks: seq<Tok>, word: string)
    requires Spells(toks, word) && PlainWord(word)
    ensures Text(4, toks) == word + Text(4, toks[|word|..])
    decreases |word|
  {
    if word == "" {
      assert toks[0..] == toks;
    } else {
      PlainTail(word);
      SpellsLess(toks, word);
      WordText(toks[1..], word[1..]);
      assert toks[1..][|word[1..]|..] == toks[|word|..];
      var rest := Text(4, toks[|word|..]);
      assert Text(4, toks) == [word[0]] + (word[1..] + rest);
      Assoc([word[0]], word[1..], rest);
      assert [word[0]] + word[1..] == word;
    }
  }

  lemma SpellsLess(toks: seq<Tok>, word: string)
    requires word != "" && Spells(toks, word)
    ensures toks != [] && toks[0] == Lit(word[0]) && Spells(toks[1..], word[1..])
  {
    forall i | 0 <= i < |word[1..]| ensures toks[1..][i] == Lit(word[1..][i]) {
      assert toks[i + 1] == Lit(word[i + 1]);
    }
  }

  const STAR_OPEN := "\0STARSTAR"

  /** The fifth pass at one wildcard that heads no trap. */
  lemma Pass5Head(tok: Tok, rest: seq<Tok>)
    requires Spaced([tok] + rest) && !TrapHead([tok] + rest)
    ensures ReplaceAll(Face(4, tok) + Text(4, rest), SLASH_MARK, DIR_REGEX)
         == Face(5, tok) + ReplaceAll(Text(4, rest), SLASH_MARK, DIR_REGEX)
  {
    assert ([tok] + rest)[1..] == rest;
    match tok
    case Lit(c) => LitFace(c); Skip(EscapeChar(c), Text(4, rest), SLASH_MARK, DIR_REGEX);
    case One => Skip("[^/]", Text(4, rest), SLASH_MARK, DIR_REGEX);
    case Star => Skip("[^/]*", Text(4, rest), SLASH_MARK, DIR_REGEX);
    case DeepDir => Hit(SLASH_MARK, DIR_REGEX, Text(4, rest));
    case Deep =>
      DeepCopied(rest);
  }

  lemma NotPrefix(c: char, p: string, t: string)
    requires !(p <= t)
    ensures !([c] + p <= [c] + t)
  {
    if |p| <= |t| {
      assert t[..|p|] != p;
      assert ([c] + t)[..|p| + 1] == [c] + t[..|p|];
      assert ([c] + p)[1..] == p && ([c] + t[..|p|])[1..] == t[..|p|];
    }
  }

  lemma WordIsPlain()
    ensures PlainWord(WORD) && '*' !in WORD && '?' !in WORD && |WORD| == 9
  {
  }

  lemma MakesTrap(rest: seq<Tok>, word: string)
    requires word == WORD && |word| == 9 && |rest| > 9 && Spells(rest, word) && (rest[9].Deep? || rest[9].DeepDir?)
    ensures TrapHead([Deep] + rest)
  {
    assert ([Deep] + rest)[1..] == rest && ([Deep] + rest)[10] == rest[9];
  }

  lemma WordMakesTrap(rest: seq<Tok>, word: string)
    requires Spaced(rest) && word == WORD && word + "\0" <= Text(4, rest)
    ensures TrapHead([Deep] + rest)
  {
    WordIsPlain();
    WordRead(rest, word);
    MakesTrap(rest, word);
  }

  lemma NoFalseMark(rest: seq<Tok>)
    requires Spaced(rest) && !TrapHead([Deep] + rest)
    ensures !(SLASH_MARK <= ['\0'] + Text(4, rest))
  {
    if WORD + "\0" <= Text(4, rest) { WordMakesTrap(rest, WORD); }
    NotPrefix('\0', WORD + "\0", Text(4, rest));
    assert SLASH_MARK == ['\0'] + (WORD + "\0");
  }

  lemma Assoc(a: string, b: string, c: string)
    ensures (a + b) + c == a + (b + c)
  {
  }

  lemma MarkCopied(t: string)
    requires !(SLASH_MARK <= ['\0'] + t)
    ensures ReplaceAll(STAR_MARK + t, SLASH_MARK, DIR_REGEX) == STAR_MARK + ReplaceAll(t, SLASH_MARK, DIR_REGEX)
  {
    assert STAR_MARK == STAR_OPEN + ['\0'];
    Assoc(STAR_OPEN, ['\0'], t);
    OpenCopied(['\0'] + t);
    Miss('\0', t, SLASH_MARK, DIR_REGEX);
    Assoc(STAR_OPEN, ['\0'], ReplaceAll(t, SLASH_MARK, DIR_REGEX));
  }

  lemma DeepCopied(rest: seq<Tok>)
    requires Spaced(rest) && !TrapHead([Deep] + rest)
    ensures ReplaceAll(STAR_MARK + Text(4, rest), SLASH_MARK, DIR_REGEX)
         == STAR_MARK + ReplaceAll(Text(4, rest), SLASH_MARK, DIR_REGEX)
  {
    NoFalseMark(rest);
    MarkCopied(Text(4, rest));
  }

  lemma OpenCopied(rest: string)
    ensures ReplaceAll(STAR_OPEN + rest, SLASH_MARK, DIR_REGEX) == STAR_OPEN + ReplaceAll(rest, SLASH_MARK, DIR_REGEX)
  {
    assert (STAR_OPEN + rest)[2] == 'T' && SLASH_MARK[2] == 'L';
    MissThenSkip(STAR_OPEN, rest, SLASH_MARK, DIR_REGEX);
  }

  lemma {:induction false} Pass5(toks: seq<Tok>)
    requires Spaced(toks) && !Trapped(toks)
    ensures ReplaceAll(Text(4, toks), SLASH_MARK, DIR_REGEX) == Text(5, toks)
  {
    if toks != [] {
      assert toks == [toks[0]] + toks[1..];
      Pass5Head(toks[0], toks[1..]);
      Pass5(toks[1..]);
    }
  }

  lemma MarksOverlap(u: string)
    ensures ReplaceAll(STAR_MARK + (WORD + ("\0" + u)), SLASH_MARK, DIR_REGEX)
         == STAR_OPEN + (DIR_REGEX + ReplaceAll(u, SLASH_MARK, DIR_REGEX))
  {
    assert STAR_MARK == STAR_OPEN + ['\0'] && SLASH_MARK == (['\0'] + WORD) + "\0";
    Assoc(STAR_OPEN, ['\0'], WORD + ("\0" + u));
    Assoc(['\0'], WORD, "\0" + u);
    Assoc(['\0'] + WORD, "\0", u);
    OpenCopied(SLASH_MARK + u);
    Hit(SLASH_MARK, DIR_REGEX, u);
  }

  /** In a trap the end of one mark is read as the start of another: the first mark is never restored. */
  lemma TrapText(toks: seq<Tok>, word: string) returns (u: string)
    requires Spaced(toks) && TrapHead(toks) && word == WORD
    ensures Text(4, toks) == STAR_MARK + (word + ("\0" + u))
  {
    WordIsPlain();
    var rest := toks[1..];
    WordText(rest, word);
    var last := rest[9..];
    assert last[0] == toks[10];
    MarkFirst(last);
    u := Text(4, last)[1..];
    assert Text(4, last) == "\0" + u;
  }

  lemma DirOpens()
    ensures DIR_REGEX == "(" + DIR_REGEX[1..]
  {
  }

  lemma TrapSprung(toks: seq<Tok>) returns (x: string)
    requires Spaced(toks) && TrapHead(toks)
    ensures ReplaceAll(Text(4, toks), SLASH_MARK, DIR_REGEX) == STAR_OPEN + ("(" + x)
  {
    var u := TrapText(toks, WORD);
    MarksOverlap(u);
    var done := ReplaceAll(u, SLASH_MARK, DIR_REGEX);
    DirOpens();
    Assoc("(", DIR_REGEX[1..], done);
    x := DIR_REGEX[1..] + done;
  }

  lemma MarkFirst(toks: seq<Tok>)
    requires toks != [] && (toks[0].Deep? || toks[0].DeepDir?)
    ensures Text(4, toks) != "" && Text(4, toks)[0] == '\0'
  {
    assert STAR_MARK[0] == '\0' && SLASH_MARK[0] == '\0';
  }

  lemma {:induction false} TrappedPass5(toks: seq<Tok>) returns (n: nat, x: string)
    requires Spaced(toks) && Trapped(toks)
    ensures n < |toks| && Spaced(toks[..n])
    ensures ReplaceAll(Text(4, toks), SLASH_MARK, DIR_REGEX) == Text(5, toks[..n]) + (STAR_OPEN + ("(" + x))
  {
    if TrapHead(toks) {
      x := TrapSprung(toks);
      n := 0;
      assert "" + (STAR_OPEN + ("(" + x)) == STAR_OPEN + ("(" + x);
    } else {
      assert toks == [toks[0]] + toks[1..];
      Pass5Head(toks[0], toks[1..]);
      var m;
      m, x := TrappedPass5(toks[1..]);
      n := m + 1;
      SpacedTake(toks, n);
      OneFaceMore(toks, m, STAR_OPEN + ("(" + x));
    }
  }

  lemma OneFaceMore(toks: seq<Tok>, m: nat, end: string)
    requires m < |toks|
    ensures Face(5, toks[0]) + (Text(5, toks[1..][..m]) + end) == Text(5, toks[..m + 1]) + end
  {
    assert toks[..m + 1][1..] == toks[1..][..m];
    Assoc(Face(5, toks[0]), Text(5, toks[1..][..m]), end);
  }

  lemma {:induction false} SpacedTake(toks: seq<Tok>, n: nat)
    requires Spaced(toks) && n <= |toks|
    ensures Spaced(toks[..n])
  {
    if n > 0 {
      SpacedTake(toks[1..], n - 1);
      assert toks[..n][1..] == toks[1..][..n - 1];
      if n > 1 { assert toks[1..][..n - 1][1..] == toks[2..][..n - 2]; }
    }
  }

  lemma Pass6Head(tok: Tok, rest: string)
    requires PlainLit(tok)
    ensures ReplaceAll(Face(5, tok) + rest, STAR_MARK, ".*") == Face(6, tok) + ReplaceAll(rest, STAR_MARK, ".*")
  {
    if tok.Deep? {
      Hit(STAR_MARK, ".*", rest);
    } else {
      if tok.Lit? { LitFace(tok.c); }
      Skip(Face(5, tok), rest, STAR_MARK, ".*");
    }
  }

  lemma {:induction false} Pass6(toks: seq<Tok>, tail: string)
    requires Spaced(toks)
    ensures ReplaceAll(Text(5, toks) + tail, STAR_MARK, ".*") == Text(6, toks) + ReplaceAll(tail, STAR_MARK, ".*")
  {
    if toks == [] {
      assert "" + tail == tail;
      assert "" + ReplaceAll(tail, STAR_MARK, ".*") == ReplaceAll(tail, STAR_MARK, ".*");
    } else {
      var rest := toks[1..];
      Pass6(rest, tail);
      Assoc(Face(5, toks[0]), Text(5, rest), tail);
      Pass6Head(toks[0], Text(5, rest) + tail);
      Assoc(Face(6, toks[0]), Text(6, rest), ReplaceAll(tail, STAR_MARK, ".*"));
    }
  }

  lemma OpenKept(x: string)
    ensures ReplaceAll(STAR_OPEN + ("(" + x), STAR_MARK, ".*") == STAR_OPEN + ReplaceAll("(" + x, STAR_MARK, ".*")
  {
    assert (STAR_OPEN + ("(" + x))[9] == '(' && STAR_MARK[9] == '\0';
    MissThenSkip(STAR_OPEN, "(" + x, STAR_MARK, ".*");
  }

  // ---------------------------------------------------------------- the seven passes together

  lemma FirstPasses(g: string)
    requires '\0' !in g
    ensures Spaced(Tokens(g))
    ensures Compile(g) == ReplaceAll(ReplaceAll(Text(4, Tokens(g)), SLASH_MARK, DIR_REGEX), STAR_MARK, ".*")
  {
    TokensSpaced(g);
    TokensText(g);
    Pass1(Tokens(g));
    Pass2(Tokens(g));
    Pass3(Tokens(g));
    Pass4(Tokens(g));
  }

  lemma CompiledText(g: string)
    requires '\0' !in g && !Trapped(Tokens(g))
    ensures Compile(g) == Text(6, Tokens(g))
  {
    FirstPasses(g);
    Pass5(Tokens(g));
    Pass6(Tokens(g), "");
    assert Text(5, Tokens(g)) + "" == Text(5, Tokens(g));
    assert Text(6, Tokens(g)) + "" == Text(6, Tokens(g));
  }

  lemma CompiledTrap(g: string) returns (toks: seq<Tok>, x: string)
    requires '\0' !in g && Trapped(Tokens(g))
    ensures Spaced(toks) && Compile(g) == Text(6, toks) + (STAR_OPEN + x)
  {
    FirstPasses(g);
    var n, y := TrappedPass5(Tokens(g));
    toks := Tokens(g)[..n];
    Pass6(toks, STAR_OPEN + ("(" + y));
    OpenKept(y);
    x := ReplaceAll("(" + y, STAR_MARK, ".*");
  }
}

/** The compiled text parses to one item per wildcard, and each item's language is what the wildcard stands for. */
module GlobMeaning {
  import opened Options
  import opened Regex
  import opened GlobCompiler
  import opened GlobDialect
  import opened GlobPasses

  // ---------------------------------------------------------------- parsing

  const SLASH_FREE := Re.Star(NotChr('/'))
  const ANYTHING := Re.Star(Dot)
  const DIRS := Opt(Group([ANYTHING, Chr('/')]))

  function Item(tok: Tok): Re {
    match tok
    case Lit(c) => Chr(c)
    case One => NotChr('/')
    case Star => SLASH_FREE
    case Deep => ANYTHING
    case DeepDir => DIRS
  }

  function Items(toks: seq<Tok>): seq<Re> {
    if toks == [] then [] else [Item(toks[0])] + Items(toks[1..])
  }

  /** Nothing that could be read as a quantifier of what comes before it. */
  predicate Opens(t: string) {
    t == "" || (t[0] != '*' && t[0] != '?' && t[0] != ')')
  }

  function Push(r: Re, p: Option<(seq<Re>, string)>): Option<(seq<Re>, string)> {
    match p
    case None => None
    case Some((rs, left)) => Some(([r] + rs, left))
  }

  lemma ParseLit(c: char, t: string)
    requires PlainLit(Lit(c)) && Opens(t)
    ensures ParseSeq(EscapeChar(c) + t) == Push(Chr(c), ParseSeq(t))
  {
    var s := EscapeChar(c) + t;
    if c in ESCAPED {
      assert s[0] == '\\' && s[1] == c && s[2..] == t;
      NotGroup(s);
    } else {
      assert s[0] == c && s[1..] == t;
      NotGroup(s);
    }
  }

  lemma NotGroup(s: string)
    requires s != "" && s[0] != '(' && s[0] != '['
    ensures !("(?:" <= s) && !("[^" <= s)
  {
  }

  lemma ParseOne(t: string)
    requires Opens(t)
    ensures ParseSeq("[^/]" + t) == Push(NotChr('/'), ParseSeq(t))
  {
    var s := "[^/]" + t;
    assert s[0] == '[' && s[1] == '^' && s[2] == '/' && s[3] == ']' && s[4..] == t;
    assert s[..2] == "[^";
    assert ParseAtom(s) == Some((NotChr('/'), t));
  }

  lemma ParseStar(t: string)
    ensures ParseSeq("[^/]*" + t) == Push(SLASH_FREE, ParseSeq(t))
  {
    var s := "[^/]*" + t;
    assert s[0] == '[' && s[1] == '^' && s[2] == '/' && s[3] == ']' && s[4..] == "*" + t;
    assert s[..2] == "[^";
    assert ParseAtom(s) == Some((NotChr('/'), "*" + t));
    assert ("*" + t)[1..] == t;
  }

  lemma ParseDeep(t: string)
    ensures ParseSeq(".*" + t) == Push(ANYTHING, ParseSeq(t))
  {
    var s := ".*" + t;
    NotGroup(s);
    assert s[0] == '.' && s[1..] == "*" + t;
    assert ParseAtom(s) == Some((Dot, "*" + t));
    assert ("*" + t)[1..] == t;
  }

  lemma ParseSlash(t: string)
    ensures ParseSeq("/)" + t) == Some(([Chr('/')], ")" + t))
  {
    var s := "/)" + t;
    NotGroup(s);
    assert s[0] == '/' && s[1..] == ")" + t;
    assert ParseAtom(s) == Some((Chr('/'), ")" + t));
    assert [Chr('/')] + [] == [Chr('/')];
  }

  lemma ParseDirs(t: string)
    ensures ParseSeq(DIR_REGEX + t) == Push(DIRS, ParseSeq(t))
  {
    var s := DIR_REGEX + t;
    assert s[..3] == "(?:" && s[3..] == ".*" + ("/)" + ("?" + t));
    ParseDeep("/)" + ("?" + t));
    ParseSlash("?" + t);
    assert [ANYTHING] + [Chr('/')] == [ANYTHING, Chr('/')];
    assert (")" + ("?" + t))[1..] == "?" + t;
    assert ParseAtom(s) == Some((Group([ANYTHING, Chr('/')]), "?" + t));
    assert ("?" + t)[1..] == t;
  }

  function Ahead(rs: seq<Re>, p: Option<(seq<Re>, string)>): Option<(seq<Re>, string)> {
    match p
    case None => None
    case Some((more, left)) => Some((rs + more, left))
  }

  lemma TextOpens(toks: seq<Tok>, tail: string)
    requires Spaced(toks) && Opens(tail)
    ensures Opens(Text(6, toks) + tail)
  {
    if toks == [] {
      assert "" + tail == tail;
    } else {
      var c := Face(6, toks[0])[0];
      assert (Text(6, toks) + tail)[0] == c;
      assert DIR_REGEX[0] == '(';
      if toks[0].Lit? { LitFace(toks[0].c); }
    }
  }

  lemma {:induction false} ParseText(toks: seq<Tok>, tail: string)
    requires Spaced(toks) && Opens(tail)
    ensures ParseSeq(Text(6, toks) + tail) == Ahead(Items(toks), ParseSeq(tail))
  {
    if toks == [] {
      assert "" + tail == tail;
      assert ParseSeq(tail).Some? ==> [] + ParseSeq(tail).value.0 == ParseSeq(tail).value.0;
    } else {
      var rest := toks[1..];
      var t := Text(6, rest) + tail;
      Assoc(Face(6, toks[0]), Text(6, rest), tail);
      TextOpens(rest, tail);
      ParseHead(toks[0], t);
      ParseText(rest, tail);
      PushAhead(Item(toks[0]), Items(rest), ParseSeq(tail));
    }
  }

  lemma ParseHead(tok: Tok, t: string)
    requires PlainLit(tok) && Opens(t)
    ensures ParseSeq(Face(6, tok) + t) == Push(Item(tok), ParseSeq(t))
  {
    match tok
    case Lit(c) => ParseLit(c, t);
    case One => ParseOne(t);
    case Star => ParseStar(t);
    case Deep => ParseDeep(t);
    case DeepDir => ParseDirs(t);
  }

  lemma PushAhead(r: Re, rs: seq<Re>, p: Option<(seq<Re>, string)>)
    ensures Push(r, Ahead(rs, p)) == Ahead([r] + rs, p)
  {
    if p.Some? { assert [r] + (rs + p.value.0) == ([r] + rs) + p.value.0; }
  }

  // ---------------------------------------------------------------- languages

  predicate OneLine(t: string) {
    forall c <- t :: c !in LINE_TERMINATORS
  }

  lemma {:induction false} AnythingMatches(fold: CaseFold, t: string)
    requires OneLine(t)
    ensures MatchesOne(fold, ANYTHING, t)
    decreases |t|
  {
    if t != "" {
      AnythingMatches(fold, t[1..]);
      assert t[..1] == [t[0]] && t[0] in t;
      assert MatchesOne(fold, Dot, t[..1]);
    }
  }

  lemma {:induction false} SlashFreeMatches(fold: CaseFold, t: string)
    ensures MatchesOne(fold, SLASH_FREE, t) <==> '/' !in t
    decreases |t|
  {
    if '/' !in t {
      if t != "" {
        SlashFreeMatches(fold, t[1..]);
        assert t[..1] == [t[0]] && t[0] in t;
        assert fold(t[0]) != fold('/');
        assert MatchesOne(fold, NotChr('/'), t[..1]);
      }
    } else if MatchesOne(fold, SLASH_FREE, t) {
      var k :| 0 < k <= |t| && MatchesOne(fold, NotChr('/'), t[..k]) && MatchesOne(fold, SLASH_FREE, t[k..]);
      assert t == t[..k] + t[k..];
      assert |t[..k]| == 1 && t[..k][0] != '/';
      SlashFreeMatches(fold, t[k..]);
    }
  }

  /** Closed segments are exactly the texts that are empty or end in a slash. */
  lemma {:induction false} SegmentsEnd(t: string)
    ensures Segments(t) <==> t == "" || t[|t| - 1] == '/'
    decreases |t|
  {
    if t != "" {
      if t[|t| - 1] == '/' {
        var k := FirstSlash(t);
        SegmentsEnd(t[k + 1..]);
      } else {
        forall k | 0 <= k < |t| && t[k] == '/' ensures !Segments(t[k + 1..]) {
          var rest := t[k + 1..];
          assert rest != "" && rest[|rest| - 1] == t[|t| - 1];
          SegmentsEnd(rest);
        }
      }
    }
  }

  lemma {:induction false} FirstSlash(t: string) returns (k: nat)
    requires '/' in t
    ensures k < |t| && t[k] == '/' && '/' !in t[..k]
  {
    if t[0] == '/' {
      k := 0;
    } else {
      var j := FirstSlash(t[1..]);
      k := j + 1;
      assert t[..k] == [t[0]] + t[1..][..j];
    }
  }

  lemma DirsMatch(fold: CaseFold, t: string)
    requires OneLine(t)
    ensures MatchesOne(fold, DIRS, t) <==> Segments(t)
  {
    SegmentsEnd(t);
    var rs := [ANYTHING, Chr('/')];
    assert rs[1..] == [Chr('/')] && rs[1..][1..] == [];
    if t != "" && t[|t| - 1] == '/' {
      var k := |t| - 1;
      assert OneLine(t[..k]);
      AnythingMatches(fold, t[..k]);
      assert t[k..] == "/" && t[k..][..1] == "/" && t[k..][1..] == "";
      assert MatchesOne(fold, Chr('/'), t[k..][..1]) && MatchesAll(fold, [], t[k..][1..]);
      assert MatchesAll(fold, rs[1..], t[k..]);
      assert MatchesAll(fold, rs, t);
    } else if t != "" && MatchesOne(fold, DIRS, t) {
      EndsInSlash(fold, t);
    }
  }

  lemma EndsInSlash(fold: CaseFold, t: string)
    requires t != "" && MatchesOne(fold, DIRS, t)
    ensures t[|t| - 1] == '/'
  {
    var rs := [ANYTHING, Chr('/')];
    assert rs[1..] == [Chr('/')] && rs[1..][1..] == [];
    assert DIRS == Opt(Group(rs)) && MatchesOne(fold, Group(rs), t);
    var k :| 0 <= k <= |t| && MatchesOne(fold, ANYTHING, t[..k]) && MatchesAll(fold, rs[1..], t[k..]);
    var u := t[k..];
    var j :| 0 <= j <= |u| && MatchesOne(fold, Chr('/'), u[..j]) && MatchesAll(fold, rs[1..][1..], u[j..]);
    assert u[..j] == u && t[|t| - 1] == u[0];
  }

  lemma ItemMatches(fold: CaseFold, tok: Tok, t: string)
    requires OneLine(t)
    ensures MatchesOne(fold, Item(tok), t) <==> StandsFor(fold, tok, t)
  {
    match tok
    case Lit(_) =>
    case One => assert |t| == 1 ==> (fold(t[0]) == fold('/') <==> t[0] == '/');
    case Star => SlashFreeMatches(fold, t);
    case Deep => AnythingMatches(fold, t);
    case DeepDir => DirsMatch(fold, t);
  }

  lemma {:induction false} ItemsMatch(fold: CaseFold, toks: seq<Tok>, t: string)
    requires OneLine(t)
    ensures MatchesAll(fold, Items(toks), t) <==> Accepts(fold, toks, t)
  {
    if toks != [] {
      var rest := toks[1..];
      assert Items(toks)[0] == Item(toks[0]) && Items(toks)[1..] == Items(rest);
      forall k | 0 <= k <= |t|
        ensures MatchesOne(fold, Items(toks)[0], t[..k]) <==> StandsFor(fold, toks[0], t[..k])
        ensures MatchesAll(fold, Items(toks)[1..], t[k..]) <==> Accepts(fold, rest, t[k..])
      {
        ItemMatches(fold, toks[0], t[..k]);
        ItemsMatch(fold, rest, t[k..]);
      }
    }
  }

  // ---------------------------------------------------------------- the exception

  /** An item that only NUL satisfies makes the whole expression refuse every NUL-free text. */
  lemma {:induction false} NulRefuses(fold: CaseFold, before: seq<Re>, more: seq<Re>, t: string)
    requires '\0' !in t
    ensures !MatchesAll(fold, before + ([Chr('\0')] + more), t)
  {
    var rs := before + ([Chr('\0')] + more);
    if before == [] {
      assert rs[0] == Chr('\0');
      forall k | 0 <= k <= |t| ensures !MatchesOne(fold, rs[0], t[..k]) {
        assert k > 0 ==> t[..k][0] in t;
      }
    } else {
      assert rs[1..] == before[1..] + ([Chr('\0')] + more);
      forall k | 0 <= k <= |t| ensures !MatchesAll(fold, rs[1..], t[k..]) {
        NulRefuses(fold, before[1..], more, t[k..]);
      }
    }
  }

  // ---------------------------------------------------------------- main results

  datatype Answer = Matched(yes: bool) | BadRegex

  /** `matchesGlob`: compile, then test the whole target; an unparsable expression throws. */
  ghost function MatchesGlob(fold: CaseFold, path: string, glob: string): Answer {
    match Parse(Compile(Pattern(glob)))
    case None => BadRegex
    case Some(rs) => Matched(MatchesAll(fold, rs, Target(path, glob)))
  }

  lemma PatternKeeps(glob: string)
    ensures Pattern(glob) == glob
  {
    if "**/" <= glob { assert glob[2] == '/'; }
  }

  lemma {:induction false} BasenameIs(path: string)
    ensures |Basename(path)| <= |path| && '/' !in Basename(path)
    ensures Basename(path) == path[|path| - |Basename(path)|..]
    ensures Basename(path) == path || path[|path| - |Basename(path)| - 1] == '/'
  {
    if '/' in path {
      BasenameIs(path[1..]);
      if '/' !in path[1..] { assert path[0] == '/'; }
    }
  }

  lemma TargetOneLine(path: string, glob: string)
    requires OneLine(path)
    ensures OneLine(Target(path, glob))
  {
    var n := if "./" <= path then path[2..] else path;
    BasenameIs(n);
  }

  /** Away from the exception the compiled expression accepts exactly what the wildcards stand for. */
  lemma CompiledMeaning(fold: CaseFold, path: string, glob: string)
    requires '\0' !in glob && OneLine(path) && !Trapped(Tokens(glob))
    ensures MatchesGlob(fold, path, glob) == Matched(Accepts(fold, Tokens(glob), Target(path, glob)))
  {
    PatternKeeps(glob);
    TokensSpaced(glob);
    CompiledText(glob);
    ParseText(Tokens(glob), "");
    assert Text(6, Tokens(glob)) + "" == Text(6, Tokens(glob));
    assert Items(Tokens(glob)) + [] == Items(Tokens(glob));
    TargetOneLine(path, glob);
    ItemsMatch(fold, Tokens(glob), Target(path, glob));
  }

  lemma ParseNul(x: string)
    ensures ParseSeq(STAR_OPEN + x) == Push(Chr('\0'), ParseSeq("STARSTAR" + x))
  {
    var tail := STAR_OPEN + x;
    assert tail[0] == '\0' && tail[1..] == "STARSTAR" + x;
    NotGroup(tail);
    assert ParseAtom(tail) == Some((Chr('\0'), "STARSTAR" + x));
    assert ("STARSTAR" + x)[0] == 'S';
  }

  lemma TrapNeedsNul(g: string) returns (before: seq<Re>, more: seq<Re>)
    requires '\0' !in g && Trapped(Tokens(g)) && Parse(Compile(g)).Some?
    ensures Parse(Compile(g)) == Some(before + ([Chr('\0')] + more))
  {
    var toks, x := CompiledTrap(g);
    assert Opens(STAR_OPEN + x) by { assert (STAR_OPEN + x)[0] == '\0'; }
    ParseText(toks, STAR_OPEN + x);
    ParseNul(x);
    before := Items(toks);
    more := ParseSeq("STARSTAR" + x).value.0;
  }

  /** In the exception no NUL-free path matches at all, whatever the glob says. */
  lemma TrapRefusesAll(fold: CaseFold, path: string, glob: string)
    requires '\0' !in glob && '\0' !in path && Trapped(Tokens(glob))
    ensures MatchesGlob(fold, path, glob) != Matched(true)
  {
    PatternKeeps(glob);
    if Parse(Compile(glob)).Some? {
      var before, more := TrapNeedsNul(glob);
      BasenameIs(if "./" <= path then path[2..] else path);
      NulRefuses(fold, before, more, Target(path, glob));
    }
  }

  /** A path whose target is `t`: a leading `./` is dropped, and a slash-free target is its own basename. */
  lemma TargetOf(t: string, glob: string)
    requires '/' in glob || '/' !in t
    ensures Target("./" + t, glob) == t
  {
    assert ("./" + t)[2..] == t;
  }

  lemma {:induction false} LitsOf(g: string)
    ensures forall tok <- Tokens(g) :: (tok.Lit? ==> tok.c in g) && (tok.DeepDir? ==> '/' in g)
  {
    if g != "" {
      LitsOf(g[Next(g).1..]);
      if Next(g).0.DeepDir? { assert g[2] == '/'; }
    }
  }

  /** Some one-line, NUL-free path is accepted, whatever the wildcards. */
  lemma {:induction false} Witness(fold: CaseFold, toks: seq<Tok>) returns (t: string)
    requires forall tok <- toks :: tok.Lit? ==> tok.c != '\0' && tok.c !in LINE_TERMINATORS
    ensures Accepts(fold, toks, t) && OneLine(t) && '\0' !in t
    ensures (forall tok <- toks :: tok.Lit? ==> tok.c != '/') ==> '/' !in t
  {
    if toks == [] {
      t := "";
    } else {
      var u := Witness(fold, toks[1..]);
      var v := match toks[0] case Lit(c) => [c] case One => "a" case Star => "" case Deep => "" case DeepDir => "";
      t := v + u;
      assert toks[0] in toks;
      assert t[..|v|] == v && t[|v|..] == u;
      assert StandsFor(fold, toks[0], t[..|v|]);
    }
  }

  /** A path the wildcards of a trapped glob accept and the compiled expression does not. */
  lemma WronglyRefused(fold: CaseFold, glob: string) returns (path: string)
    requires '\0' !in glob && OneLine(glob) && Trapped(Tokens(glob))
    ensures OneLine(path) && '\0' !in path
    ensures Accepts(fold, Tokens(glob), Target(path, glob)) && MatchesGlob(fold, path, glob) != Matched(true)
  {
    LitsOf(glob);
    var t := Witness(fold, Tokens(glob));
    TargetOf(t, glob);
    path := "./" + t;
    TrapRefusesAll(fold, path, glob);
  }

  /**
   The rewriting is exact for a glob if and only if the glob holds no trap; a glob with one refuses
   paths its wildcards accept.
   */
  lemma ExactUnlessTrapped(fold: CaseFold, glob: string)
    requires '\0' !in glob && OneLine(glob)
    ensures (forall path :: OneLine(path) && '\0' !in path ==>
              MatchesGlob(fold, path, glob) == Matched(Accepts(fold, Tokens(glob), Target(path, glob))))
       <==> !Trapped(Tokens(glob))
  {
    if Trapped(Tokens(glob)) {
      var path := WronglyRefused(fold, glob);
    } else {
      forall path | OneLine(path) && '\0' !in path
        ensures MatchesGlob(fold, path, glob) == Matched(Accepts(fold, Tokens(glob), Target(path, glob)))
      {
        CompiledMeaning(fold, path, glob);
      }
    }
  }

  // ---------------------------------------------------------------- the documented dialect

  /** `needle` occurs somewhere in `g`. */
  predicate Holds(g: string, needle: string) {
    g != "" && (needle <= g || Holds(g[1..], needle))
  }

  lemma PrefixOf(a: string, b: string, g: string)
    requires a <= b
    ensures b <= g ==> a <= g
  {
  }

  lemma HoldsRest(g: string, needle: string, n: nat)
    requires n <= |g| && !Holds(g, needle)
    ensures !Holds(g[n..], needle)
  {
    if n > 0 {
      HoldsRest(g[1..], needle, n - 1);
      assert g[1..][n - 1..] == g[n..];
    } else {
      assert g[0..] == g;
    }
  }

  /** Without a run of three stars the passes read the glob greedily. */
  lemma {:induction false} GreedyReading(g: string)
    requires !Holds(g, "***")
    ensures Tokens(g) == Read(g)
  {
    if g != "" {
      PrefixOf("***", "***/", g);
      HoldsRest(g, "***", Next(g).1);
      GreedyReading(g[Next(g).1..]);
    }
  }

  const TRAP := "**SLASHSTAR**"

  function Source(tok: Tok): string {
    match tok
    case Lit(c) => [c]
    case One => "?"
    case Star => "*"
    case Deep => "**"
    case DeepDir => "**/"
  }

  lemma NextSource(g: string)
    requires g != ""
    ensures g == Source(Next(g).0) + Later(g) && Tokens(g) == [Next(g).0] + Tokens(Later(g))
  {
    assert g == g[..Next(g).1] + g[Next(g).1..];
  }

  function Later(g: string): string
    requires g != ""
  {
    g[Next(g).1..]
  }

  /** Reading a word of literals back into the glob's text. */
  lemma {:induction false} WordInSource(g: string, word: string)
    requires PlainWord(word) && Spells(Tokens(g), word)
    ensures word <= g && Tokens(g)[|word|..] == Tokens(g[|word|..])
  {
    if word == "" {
      assert g[0..] == g && Tokens(g)[0..] == Tokens(g);
    } else {
      NextSource(g);
      PlainTail(word);
      assert Next(g).0 == Lit(word[0]) && g[0] == word[0];
      SpellsLess(Tokens(g), word);
      assert Tokens(g)[1..] == Tokens(g[1..]);
      WordInSource(g[1..], word[1..]);
      assert g == [word[0]] + g[1..] && word == [word[0]] + word[1..];
      assert g[1..][|word| - 1..] == g[|word|..];
      assert Tokens(g)[|word|..] == Tokens(g)[1..][|word| - 1..];
    }
  }

  lemma JoinTrap(z: string)
    ensures "**" + (WORD + ("**" + z)) == TRAP + z
  {
    assert TRAP == ("**" + WORD) + "**";
    Assoc("**" + WORD, "**", z);
    Assoc("**", WORD, "**" + z);
  }

  lemma StarsFirst(g: string)
    requires g != "" && (Next(g).0.Deep? || Next(g).0.DeepDir?)
    ensures "**" <= g && g == "**" + g[2..]
  {
    NextIs(g);
    TwoStars(g);
    assert g == g[..2] + g[2..];
  }

  lemma TrapRest(rest: string, word: string) returns (last: string)
    requires word == WORD && Spells(Tokens(rest), word) && |Tokens(rest)| > 9
             && (Tokens(rest)[9].Deep? || Tokens(rest)[9].DeepDir?)
    ensures rest == word + last && "**" <= last
  {
    WordIsPlain();
    WordInSource(rest, word);
    last := rest[9..];
    assert rest == rest[..9] + last;
    LastStars(rest, last);
  }

  lemma TrapPieces(g: string) returns (last: string)
    requires TrapHead(Tokens(g))
    ensures "**" <= g && g[2..] == WORD + last && "**" <= last
  {
    HeadOf(g);
    StarsFirst(g);
    var rest := g[2..];
    assert Tokens(g)[1..] == Tokens(rest);
    last := TrapRest(rest, WORD);
  }

  lemma LastStars(rest: string, last: string)
    requires |Tokens(rest)| > 9 && Tokens(rest)[9..] == Tokens(last)
    requires Tokens(rest)[9].Deep? || Tokens(rest)[9].DeepDir?
    ensures "**" <= last
  {
    HeadOf(last);
    assert Tokens(last)[0] == Tokens(rest)[9];
    StarsFirst(last);
  }

  lemma TrapHeadInSource(g: string)
    requires TrapHead(Tokens(g))
    ensures TRAP <= g
  {
    var last := TrapPieces(g);
    JoinTrap(last[2..]);
    assert last == "**" + last[2..];
    assert g == "**" + g[2..];
  }

  lemma {:induction false} TrapInSource(g: string)
    requires Trapped(Tokens(g))
    ensures Holds(g, TRAP)
  {
    NextSource(g);
    if TrapHead(Tokens(g)) {
      TrapHeadInSource(g);
    } else {
      TrapInSource(g[Next(g).1..]);
      if !Holds(g, TRAP) { HoldsRest(g, TRAP, Next(g).1); }
    }
  }

  /**
   `matchesGlob` implements its documented dialect, on the path or on its basename, for every glob without
   a run of three stars and without the text `**SLASHSTAR**`, and every path without a line terminator.
   */
  lemma DocumentedDialect(fold: CaseFold, path: string, glob: string)
    requires '\0' !in glob && OneLine(path) && !Holds(glob, "***") && !Holds(glob, TRAP)
    ensures MatchesGlob(fold, path, glob) == Matched(Accepts(fold, Read(glob), Target(path, glob)))
  {
    GreedyReading(glob);
    if Trapped(Tokens(glob)) { TrapInSource(glob); }
    CompiledMeaning(fold, path, glob);
  }

  lemma LitFirst(g: string)
    requires g != "" && g[0] != '*' && g[0] != '?'
    ensures Tokens(g) != [] && Tokens(g)[0] == Lit(g[0]) && Tokens(g)[1..] == Tokens(g[1..])
  {
    NextIs(g);
    HeadOf(g);
  }

  lemma {:induction false} WordTokens(word: string, rest: string)
    requires PlainWord(word) && '*' !in word && '?' !in word
    ensures Spells(Tokens(word + rest), word) && Tokens(word + rest)[|word|..] == Tokens(rest)
  {
    if word == "" {
      assert "" + rest == rest && Tokens(rest)[0..] == Tokens(rest);
    } else {
      var g := word + rest;
      assert g[1..] == word[1..] + rest && g[0] == word[0] && word[0] in word;
      PlainTail(word);
      LitFirst(g);
      assert forall c <- word[1..] :: c in word;
      WordTokens(word[1..], rest);
      assert Tokens(g)[|word|..] == Tokens(g)[1..][|word| - 1..];
      SpellsMore(Tokens(g), word);
    }
  }

  lemma {:induction false} AcceptsWord(fold: CaseFold, toks: seq<Tok>, word: string)
    requires Spells(toks, word) && toks[|word|..] == [Deep]
    ensures Accepts(fold, toks, word)
  {
    if word == "" {
      assert toks == [Deep] && toks[1..] == [];
      assert ""[0..] == "" && Accepts(fold, [], ""[0..]);
      assert Accepts(fold, toks, "");
    } else {
      assert toks[1..][|word| - 1..] == toks[|word|..];
      AcceptsWord(fold, toks[1..], word[1..]);
      assert word[..1] == [word[0]] && toks[0] == Lit(word[0]);
      assert StandsFor(fold, toks[0], word[..1]);
    }
  }

  lemma TrapTail(word: string, rest: string)
    requires word == WORD && PlainWord(word) && '*' !in word && '?' !in word && rest == word + "**"
    ensures Spells(Tokens(rest), word) && Tokens(rest)[|word|..] == [Deep]
  {
    WordTokens(word, "**");
    DeepAlone();
  }

  lemma TrapTokens()
    ensures var toks := Tokens(TRAP);
            TrapHead(toks) && Spells(toks[1..], WORD) && toks[1..][9..] == [Deep] && toks[0] == Deep
  {
    TrapOpens();
    WordIsPlain();
    TrapTail(WORD, WORD + "**");
    HeadFromTail(Tokens(TRAP));
  }

  lemma HeadFromTail(toks: seq<Tok>)
    requires toks != [] && toks[0] == Deep && Spells(toks[1..], WORD) && toks[1..][9..] == [Deep]
    ensures TrapHead(toks)
  {
    assert toks[1..][9..][0] == toks[10];
  }

  lemma TrapOpens()
    ensures var toks := Tokens(TRAP); toks != [] && toks[0] == Deep && toks[1..] == Tokens(WORD + "**")
  {
    var g := TRAP;
    assert g[2] == 'S' && g[2..] == WORD + "**";
    assert g[..2] == "**";
    HeadOf(g);
  }

  lemma DeepAlone()
    ensures Tokens("**") == [Deep]
  {
    HeadOf("**");
    assert "**"[2..] == "";
  }

  /** A literal slash in the glob needs a slash in the path. */
  lemma {:induction false} SlashNeeded(fold: CaseFold, toks: seq<Tok>, t: string)
    requires Lit('/') in toks && '/' !in t
    ensures !Accepts(fold, toks, t)
  {
    forall k | 0 <= k <= |t| ensures !(StandsFor(fold, toks[0], t[..k]) && Accepts(fold, toks[1..], t[k..])) {
      if toks[0] == Lit('/') {
        assert k > 0 ==> t[..k][0] in t;
      } else {
        assert Lit('/') in toks[1..];
        SlashNeeded(fold, toks[1..], t[k..]);
      }
    }
  }

  lemma TrapAccepts(fold: CaseFold, toks: seq<Tok>, word: string)
    requires toks != [] && toks[0] == Deep && Spells(toks[1..], word) && toks[1..][|word|..] == [Deep]
    ensures Accepts(fold, toks, word)
  {
    AcceptsWord(fold, toks[1..], word);
    assert word[..0] == "" && word[0..] == word && StandsFor(fold, toks[0], word[..0]);
  }

  /** The first exclusion is needed: a mark is read out of place. */
  lemma TrapExample(fold: CaseFold, glob: string, path: string)
    requires glob == TRAP && path == WORD
    ensures MatchesGlob(fold, path, glob) != Matched(true) && Accepts(fold, Tokens(glob), path)
  {
    TrapTokens();
    WordIsPlain();
    NoNul(glob, path);
    TrapAccepts(fold, Tokens(glob), path);
    TrapRefusesAll(fold, path, glob);
  }

  lemma NoNul(glob: string, path: string)
    requires glob == TRAP && path == WORD
    ensures '\0' !in glob && '\0' !in path
  {
  }

  lemma TripleTokens()
    ensures Tokens("***/x") == [Tok.Star, DeepDir, Lit('x')]
  {
    var g := "***/x";
    assert g[1..] == "**/x" && "**/x"[3..] == "x" && "x"[1..] == "";
    assert "***/" <= g && g[2] == '*';
    NextSource(g);
    NextSource("**/x");
    NextSource("x");
  }

  lemma TripleRead()
    ensures Lit('/') in Read("***/x")
  {
    var g := "***/x";
    assert g[2] == '*' && g[..2] == "**";
    assert g[2..] == "*/x" && "*/x"[1..] == "/x";
    assert "/x"[0] == '/' && Read("/x")[0] == Lit("/x"[0]);
    assert Read("*/x")[1..] == Read("/x") && Read(g)[1..] == Read("*/x");
    assert Read(g)[2] == Lit('/');
  }

  lemma TripleFree()
    ensures !Trapped([Tok.Star, DeepDir, Lit('x')])
  {
    var toks := [Tok.Star, DeepDir, Lit('x')];
    assert toks[1..] == [DeepDir, Lit('x')] && toks[1..][1..] == [Lit('x')] && toks[1..][1..][1..] == [];
  }

  lemma TripleTarget()
    ensures Target("abx", "***/x") == "abx"
  {
    assert "abx"[0] == 'a' && "***/x"[3] == '/';
  }

  lemma SlashPromised(fold: CaseFold, path: string, glob: string)
    requires '\0' !in glob && OneLine(path) && !Trapped(Tokens(glob)) && Target(path, glob) == path
    requires Accepts(fold, Tokens(glob), path) && Lit('/') in Read(glob) && '/' !in path
    ensures MatchesGlob(fold, path, glob) == Matched(true) && !Accepts(fold, Read(glob), path)
  {
    CompiledMeaning(fold, path, glob);
    SlashNeeded(fold, Read(glob), path);
  }

  /**
   The second is needed too: a run of three stars before a slash is split from its far end, so the directory
   part of the glob no longer has to end at a slash.
   */
  lemma TripleStarExample(fold: CaseFold, glob: string, path: string)
    requires glob == "***/x" && path == "abx"
    ensures MatchesGlob(fold, path, glob) == Matched(true) && !Accepts(fold, Read(glob), path)
  {
    TripleText(glob, path);
    TripleFacts(fold, glob, path);
    SlashPromised(fold, path, glob);
  }

  lemma TripleText(glob: string, path: string)
    requires glob == "***/x" && path == "abx"
    ensures '\0' !in glob && OneLine(path) && '/' !in path
  {
  }

  lemma TripleFacts(fold: CaseFold, glob: string, path: string)
    requires glob == "***/x" && path == "abx"
    ensures !Trapped(Tokens(glob)) && Target(path, glob) == path
    ensures Accepts(fold, Tokens(glob), path) && Lit('/') in Read(glob)
  {
    TripleTokens();
    TripleFree();
    TripleTarget();
    AcceptsTriple(fold);
    TripleRead();
  }

  lemma AcceptsTriple(fold: CaseFold)
    ensures Accepts(fold, [Tok.Star, DeepDir, Lit('x')], "abx")
  {
    var toks := [Tok.Star, DeepDir, Lit('x')];
    assert toks[1..] == [DeepDir, Lit('x')] && toks[1..][1..] == [Lit('x')] && [Lit('x')][1..] == [];
    assert "x"[..1] == "x" && "x"[1..] == "" && StandsFor(fold, Lit('x'), "x"[..1]);
    assert Accepts(fold, [Lit('x')], "x");
    assert "x"[..0] == "" && "x"[0..] == "x" && StandsFor(fold, DeepDir, "x"[..0]);
    assert Accepts(fold, toks[1..], "x");
    assert "abx"[..2] == "ab" && "abx"[2..] == "x" && StandsFor(fold, Tok.Star, "abx"[..2]);
  }
}
