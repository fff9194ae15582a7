/**
 Glob matching by rewriting: a glob is turned into a regular expression by six textual passes,
 two of which park their result behind NUL-delimited marks until the later passes are over.
 */
module GlobCompiler {
  import opened Options

  /** Leftmost, non-overlapping replacement of every occurrence, as `replace(/.../g, ...)` does. */
  function ReplaceAll(s: string, pat: string, rep: string): string
    requires pat != ""
  {
    if s == "" then ""
    else if pat <= s then rep + ReplaceAll(s[|pat|..], pat, rep)
    else [s[0]] + ReplaceAll(s[1..], pat, rep)
  }

  const ESCAPED := ".+^${}()|[]\\"

  function EscapeChar(c: char): string {
    if c in ESCAPED then ['\\', c] else [c]
  }

  function Escape(s: string): string {
    if s == "" then "" else EscapeChar(s[0]) + Escape(s[1..])
  }

  const SLASH_MARK := "\0SLASHSTAR\0"
  const STAR_MARK := "\0STARSTAR\0"
  const DIR_REGEX := "(?:.*/)?"

  /** The text handed to `new RegExp`, between the anchors. */
  function Compile(pattern: string): string {
    var s1 := ReplaceAll(Escape(pattern), "**/", SLASH_MARK);
    var s2 := ReplaceAll(s1, "**", STAR_MARK);
    var s3 := ReplaceAll(s2, "*", "[^/]*");
    var s4 := ReplaceAll(s3, "?", "[^/]");
    var s5 := ReplaceAll(s4, SLASH_MARK, DIR_REGEX);
    ReplaceAll(s5, STAR_MARK, ".*")
  }

  /** What follows the last slash; the whole path when there is none. */
  function Basename(path: string): string
    decreases |path|
  {
    if '/' !in path then path else Basename(path[1..])
  }

  function Target(path: string, glob: string): string {
    var normalized := if "./" <= path then path[2..] else path;
    if '/' in glob then normalized else Basename(normalized)
  }

  function Pattern(glob: string): string {
    if '/' in glob then glob else if "**/" <= glob then glob[3..] else glob
  }
}

/** The fragment of ECMAScript regular expressions the compiler emits: syntax and language. */
module Regex {
  import opened Options

  datatype Re = Chr(c: char) | Dot | NotChr(c: char) | Star(r: Re) | Opt(r: Re) | Group(rs: seq<Re>)

  const SYNTAX := "^$\\.*+?()[]{}|"

  /** Parse up to the end of the text or an unmatched `)`; None is a form outside the fragment. */
  function ParseSeq(s: string): (p: Option<(seq<Re>, string)>)
    ensures p.Some? ==> |p.value.1| <= |s|
    decreases |s|, 1
  {
    if s == "" || s[0] == ')' then Some(([], s))
    else
      match ParseAtom(s)
      case None => None
      case Some((atom, rest)) =>
        var (item, after) := Quantify(atom, rest);
        match ParseSeq(after)
        case None => None
        case Some((more, left)) => Some(([item] + more, left))
  }

  function ParseAtom(s: string): (p: Option<(Re, string)>)
    requires s != ""
    ensures p.Some? ==> |p.value.1| < |s|
    decreases |s|, 0
  {
    if "(?:" <= s then
      match ParseSeq(s[3..])
      case None => None
      case Some((rs, rest)) => if rest != "" && rest[0] == ')' then Some((Group(rs), rest[1..])) else None
    else if "[^" <= s then
      if |s| >= 4 && s[2] !in "\\]" && s[3] == ']' then Some((NotChr(s[2]), s[4..])) else None
    else if s[0] == '.' then Some((Dot, s[1..]))
    else if s[0] == '\\' then
      if |s| >= 2 && s[1] in SYNTAX then Some((Chr(s[1]), s[2..])) else None
    else if s[0] in SYNTAX then None
    else Some((Chr(s[0]), s[1..]))
  }

  function Quantify(atom: Re, rest: string): (p: (Re, string))
    ensures |p.1| <= |rest|
  {
    if rest != "" && rest[0] == '*' then (Star(atom), rest[1..])
    else if rest != "" && rest[0] == '?' then (Opt(atom), rest[1..])
    else (atom, rest)
  }

  function Parse(s: string): Option<seq<Re>> {
    match ParseSeq(s)
    case None => None
    case Some((rs, left)) => if left == "" then Some(rs) else None
  }

  const LINE_TERMINATORS := "\n\r\U{2028}\U{2029}"

  /** Case folding under the `i` flag: no other character folds to a slash or to NUL. */
  ghost predicate KeepsApart(f: char -> char) {
    forall c {:trigger f(c)} :: (f(c) == f('/') ==> c == '/') && (f(c) == f('\0') ==> c == '\0')
  }
  type CaseFold = f: char -> char | KeepsApart(f) ghost witness (c: char) => c

  ghost predicate MatchesOne(fold: CaseFold, r: Re, t: string)
    decreases r, |t|
  {
    match r
    case Chr(c) => |t| == 1 && fold(t[0]) == fold(c)
    case Dot => |t| == 1 && t[0] !in LINE_TERMINATORS
    case NotChr(c) => |t| == 1 && fold(t[0]) != fold(c)
    case Star(q) => t == "" || exists k :: 0 < k <= |t| && MatchesOne(fold, q, t[..k]) && MatchesOne(fold, r, t[k..])
    case Opt(q) => t == "" || MatchesOne(fold, q, t)
    case Group(rs) => MatchesAll(fold, rs, t)
  }

  /** The whole of `t` is matched, which is what the anchors ask. */
  ghost predicate MatchesAll(fold: CaseFold, rs: seq<Re>, t: string)
    decreases rs, |t|
  {
    if rs == [] then t == ""
    else exists k :: 0 <= k <= |t| && MatchesOne(fold, rs[0], t[..k]) && MatchesAll(fold, rs[1..], t[k..])
  }
}

/** The dialect as documented: what each wildcard stands for. */
module GlobDialect {
  import opened Regex

  datatype Tok = Lit(c: char) | One | Star | Deep | DeepDir

  /** Greedy reading, longest wildcard first. */
  function Read(g: string): seq<Tok> {
    if g == "" then []
    else if "**/" <= g then [DeepDir] + Read(g[3..])
    else if "**" <= g then [Deep] + Read(g[2..])
    else if g[0] == '*' then [Tok.Star] + Read(g[1..])
    else if g[0] == '?' then [One] + Read(g[1..])
    else [Lit(g[0])] + Read(g[1..])
  }

  /** Zero or more path segments, each closed by its slash. */
  ghost predicate Segments(t: string)
    decreases |t|
  {
    t == "" || exists k :: 0 <= k < |t| && t[k] == '/' && '/' !in t[..k] && Segments(t[k + 1..])
  }

  ghost predicate StandsFor(fold: CaseFold, tok: Tok, t: string) {
    match tok
    case Lit(c) => |t| == 1 && fold(t[0]) == fold(c)
    case One => |t| == 1 && t[0] != '/'
    case Star => '/' !in t
    case Deep => true
    case DeepDir => Segments(t)
  }

  ghost predicate Accepts(fold: CaseFold, toks: seq<Tok>, t: string) {
    if toks == [] then t == ""
    else exists k :: 0 <= k <= |t| && StandsFor(fold, toks[0], t[..k]) && Accepts(fold, toks[1..], t[k..])
  }
}
