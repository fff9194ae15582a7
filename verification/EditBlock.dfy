/**
 The edit block: search-and-replace hunks between marker lines, for one file named on the fence or for several files
 named by header lines. Text is taken line by line.
 */
module EditBlockSpec {
  import opened Options

  type Line = string
  type Word = string

  /** The three lines around a hunk; the end marker may be followed by blanks. */
  datatype Markers = Markers(search: Line, separator: Line, replace: Line)

  const MARKERS := Markers("<<<<<<< SEARCH", "=======", ">>>>>>> REPLACE")

  datatype Hunk = Hunk(search: string, replace: string)
  datatype Edit = Edit(file: string, all: bool, hunk: Hunk)
  datatype Section = Section(file: string, all: bool, body: seq<Line>)

  /** `BadPath` is a rejected file; `NoHunk` a body or section without a hunk; `NoFile` a body that names no file. */
  datatype Action = Edits(edits: seq<Edit>) | BadPath(file: string) | NoHunk | NoFile

  // ---------------------------------------------------------------- lines and words

  function Split(s: string): (lines: seq<Line>)
    ensures |lines| > 0
    decreases |s|
  {
    SplitFrom(s, 0)
  }

  /** The lines of `s`, knowing that its first `i` characters are not line ends. */
  function SplitFrom(s: string, i: nat): (lines: seq<Line>)
    requires i <= |s|
    ensures |lines| > 0
    decreases |s|, |s| - i
  {
    if i == |s| then [s] else if s[i] == '\n' then [s[..i]] + SplitFrom(s[i + 1..], 0) else SplitFrom(s, i + 1)
  }

  /** Complete lines as text: each followed by its line end. */
  function Flat(lines: seq<Line>): string
    decreases |lines|
  {
    if lines == [] then "" else lines[0] + "\n" + Flat(lines[1..])
  }

  predicate IsSpace(c: char) {
    c in {' ', '\t', '\n', '\U{0b}', '\U{0c}', '\r', '\U{a0}', '\U{1680}', '\U{2028}', '\U{2029}', '\U{202f}',
        '\U{205f}', '\U{3000}', '\U{feff}'}
    || '\U{2000}' <= c <= '\U{200a}'
  }

  predicate Blank(s: string) {
    forall c <- s :: IsSpace(c)
  }

  function Words(s: string): seq<Word> {
    WordsFrom(s, "")
  }

  /** The words of `s` after the started word `w`. */
  function WordsFrom(s: string, w: Word): seq<Word>
    decreases |s|
  {
    if s == "" then (if w == "" then [] else [w])
    else if IsSpace(s[0]) then (if w == "" then [] else [w]) + WordsFrom(s[1..], "")
    else WordsFrom(s[1..], w + [s[0]])
  }

  function Joined(words: seq<Word>): string
    decreases |words|
  {
    if words == [] then "" else if |words| == 1 then words[0] else words[0] + " " + Joined(words[1..])
  }

  predicate IsAll(w: Word) {
    |w| == 3 && w[0] in {'a', 'A'} && w[1] in {'l', 'L'} && w[2] in {'l', 'L'}
  }

  /** A final `all` asks for every occurrence. */
  function WantsAll(words: seq<Word>): bool {
    words != [] && IsAll(words[|words| - 1])
  }

  function FileOf(words: seq<Word>): string {
    Joined(if WantsAll(words) then words[..|words| - 1] else words)
  }

  // ---------------------------------------------------------------- hunks

  predicate IsEnd(m: Markers, line: Line) {
    m.replace <= line && Blank(line[|m.replace|..])
  }

  /** The first line from `i` on that is `marker` and not the last line of the text; the length if none. */
  function MarkerFrom(lines: seq<Line>, i: nat, marker: Line): (r: nat)
    requires i <= |lines|
    ensures i <= r <= |lines|
    decreases |lines| - i
  {
    if i == |lines| then i else if lines[i] == marker && i + 1 < |lines| then i else MarkerFrom(lines, i + 1, marker)
  }

  function EndFrom(m: Markers, lines: seq<Line>, i: nat): (r: nat)
    requires i <= |lines|
    ensures i <= r <= |lines|
    decreases |lines| - i
  {
    if i == |lines| || IsEnd(m, lines[i]) then i else EndFrom(m, lines, i + 1)
  }

  /** The lines of the next hunk's three markers. */
  datatype Place = Place(search: nat, separator: nat, end: nat)

  /** Search marker, separator, end marker: the first of each after the one before. */
  function NextHunk(m: Markers, lines: seq<Line>): (p: Option<Place>)
    ensures p.Some? ==> p.value.search < p.value.separator < p.value.end < |lines|
  {
    var i := MarkerFrom(lines, 0, m.search);
    if i == |lines| then None
    else
      var j := MarkerFrom(lines, i + 1, m.separator);
      if j == |lines| then None
      else
        var k := EndFrom(m, lines, j + 1);
        if k == |lines| then None else Some(Place(i, j, k))
  }

  function HunkAt(lines: seq<Line>, p: Place): Hunk
    requires p.search < p.separator < p.end < |lines|
  {
    Hunk(Flat(lines[p.search + 1..p.separator]), Flat(lines[p.separator + 1..p.end]))
  }

  function HunksBetween(m: Markers, lines: seq<Line>): seq<Hunk>
    decreases |lines|
  {
    match NextHunk(m, lines)
    case None => []
    case Some(p) => [HunkAt(lines, p)] + HunksBetween(m, lines[p.end + 1..])
  }

  function HunksIn(lines: seq<Line>): seq<Hunk> {
    HunksBetween(MARKERS, lines)
  }

  // ---------------------------------------------------------------- files

  function HeaderWords(line: Line): seq<Word> {
    if |line| > 3 && line[..3] == "---" && IsSpace(line[3]) then Words(line[3..]) else []
  }

  predicate IsHeader(line: Line) {
    HeaderWords(line) != []
  }

  /** A header is honoured before any file, or once the current file has a complete hunk. */
  predicate Opens(current: Option<Section>, line: Line) {
    IsHeader(line) && (current.None? || HunksIn(current.value.body) != [])
  }

  function Opened(line: Line): Section {
    Section(FileOf(HeaderWords(line)), WantsAll(HeaderWords(line)), [])
  }

  function Closed(current: Option<Section>): seq<Section> {
    if current.Some? then [current.value] else []
  }

  function SectionsFrom(lines: seq<Line>, current: Option<Section>): seq<Section>
    decreases |lines|
  {
    if lines == [] then Closed(current)
    else if Opens(current, lines[0]) then Closed(current) + SectionsFrom(lines[1..], Some(Opened(lines[0])))
    else SectionsFrom(lines[1..], if current.Some? then Some(current.value.(body := current.value.body + [lines[0]]))
        else None)
  }

  function Named(sections: seq<Section>): seq<Section>
    decreases |sections|
  {
    if sections == [] then [] else (if sections[0].file != "" then [sections[0]] else []) + Named(sections[1..])
  }

  function SplitByFileHeader(code: string): seq<Section> {
    Named(SectionsFrom(Split(code), None))
  }

  function Tagged(hunks: seq<Hunk>, file: string, all: bool): seq<Edit> {
    seq(|hunks|, i requires 0 <= i < |hunks| => Edit(file, all, hunks[i]))
  }

  function EditsOf(sections: seq<Section>, allowed: string -> bool): Action
    decreases |sections|
  {
    if sections == [] then Edits([])
    else
      var s := sections[0];
      if !allowed(s.file) then BadPath(s.file)
      else if HunksIn(s.body) == [] then NoHunk
      else match EditsOf(sections[1..], allowed)
        case Edits(rest) => Edits(Tagged(HunksIn(s.body), s.file, s.all) + rest)
        case problem => problem
  }

  /** `allowed` stands for the path rules. */
  function ParseEditBlock(arg: string, code: string, allowed: string -> bool): Action {
    var words := Words(arg);
    var file := FileOf(words);
    if file != "" then
      if !allowed(file) then BadPath(file)
      else if HunksIn(Split(code)) == [] then NoHunk
      else Edits(Tagged(HunksIn(Split(code)), file, WantsAll(words)))
    else if SplitByFileHeader(code) == [] then NoFile
    else EditsOf(SplitByFileHeader(code), allowed)
  }

  // ---------------------------------------------------------------- printing

  function PrintHunk(m: Markers, h: Hunk): string {
    m.search + "\n" + h.search + m.separator + "\n" + h.replace + m.replace + "\n"
  }

  function PrintHunks(m: Markers, hunks: seq<Hunk>): string
    decreases |hunks|
  {
    if hunks == [] then "" else PrintHunk(m, hunks[0]) + PrintHunks(m, hunks[1..])
  }

  datatype FileEdits = FileEdits(words: seq<Word>, all: bool, hunks: seq<Hunk>)

  function HeaderLine(f: FileEdits): Line {
    "--- " + Joined(f.words + (if f.all then ["all"] else []))
  }

  function PrintFiles(files: seq<FileEdits>): string
    decreases |files|
  {
    if files == [] then ""
        else HeaderLine(files[0]) + "\n" + PrintHunks(MARKERS, files[0].hunks) + PrintFiles(files[1..])
  }
}

/** What is printed is parsed back. */
module EditBlockTheorems {
  import opened Options
  import opened EditBlockSpec

  predicate OneLine(line: Line) {
    '\n' !in line
  }

  predicate AllOneLine(lines: seq<Line>) {
    forall line <- lines :: OneLine(line)
  }

  predicate CompleteLines(s: string) {
    s == "" || s[|s| - 1] == '\n'
  }

  /** The lines of a text made of complete lines. */
  function LinesOf(s: string): seq<Line> {
    Split(s)[..|Split(s)| - 1]
  }

  // ---------------------------------------------------------------- splitting and joining

  lemma {:induction false} SplitLine(line: Line, rest: string, i: nat)
    requires OneLine(line) && i <= |line|
    ensures SplitFrom(line + "\n" + rest, i) == [line] + SplitFrom(rest, 0)
    decreases |line| - i
  {
    var s := line + "\n" + rest;
    if i == |line| {
      assert s[..i] == line && s[i + 1..] == rest;
    } else {
      assert s[i] == line[i] && line[i] in line;
      SplitLine(line, rest, i + 1);
    }
  }

  lemma {:induction false} SplitFlat(lines: seq<Line>, rest: string)
    requires AllOneLine(lines)
    ensures Split(Flat(lines) + rest) == lines + Split(rest)
    decreases |lines|
  {
    if lines == [] {
      assert Flat(lines) + rest == rest;
    } else {
      assert lines[0] in lines;
      SplitFlat(lines[1..], rest);
      SplitLine(lines[0], Flat(lines[1..]) + rest, 0);
      assert Flat(lines) + rest == lines[0] + "\n" + (Flat(lines[1..]) + rest);
      assert lines == [lines[0]] + lines[1..];
    }
  }

  lemma {:induction false} SplitOneLine(s: string, i: nat)
    requires i <= |s| && '\n' !in s[..i]
    ensures AllOneLine(SplitFrom(s, i))
    decreases |s|, |s| - i
  {
    if i == |s| {
      assert s[..i] == s;
    } else if s[i] == '\n' {
      SplitOneLine(s[i + 1..], 0);
    } else {
      assert s[..i + 1] == s[..i] + [s[i]];
      SplitOneLine(s, i + 1);
    }
  }

  lemma InitOfCons(line: Line, rest: seq<Line>)
    requires |rest| > 0
    ensures var lines := [line] + rest;
            Flat(lines[..|lines| - 1]) == line + "\n" + Flat(rest[..|rest| - 1])
                && lines[|lines| - 1] == rest[|rest| - 1]
  {
    var lines := [line] + rest;
    assert lines[..|lines| - 1] == [line] + rest[..|rest| - 1];
    assert lines[..|lines| - 1][1..] == rest[..|rest| - 1];
  }

  lemma {:induction false} SplitJoins(s: string, i: nat)
    requires i <= |s|
    ensures var lines := SplitFrom(s, i); s == Flat(lines[..|lines| - 1]) + lines[|lines| - 1]
    decreases |s|, |s| - i
  {
    if i < |s| && s[i] == '\n' {
      var rest := SplitFrom(s[i + 1..], 0);
      SplitJoins(s[i + 1..], 0);
      InitOfCons(s[..i], rest);
      assert s == s[..i] + "\n" + s[i + 1..];
      Associate(s[..i] + "\n", Flat(rest[..|rest| - 1]), rest[|rest| - 1]);
    } else if i < |s| {
      SplitJoins(s, i + 1);
    }
  }

  lemma Associate(a: string, b: string, c: string)
    ensures a + (b + c) == a + b + c
  {
  }

  lemma {:induction false} SplitEndsEmpty(s: string, i: nat)
    requires i < |s| && s[|s| - 1] == '\n'
    ensures SplitFrom(s, i)[|SplitFrom(s, i)| - 1] == ""
    decreases |s|, |s| - i
  {
    if s[i] == '\n' {
      if i + 1 < |s| { SplitEndsEmpty(s[i + 1..], 0); }
    } else {
      SplitEndsEmpty(s, i + 1);
    }
  }

  /** A text of complete lines is its lines, each with its end. */
  lemma LinesAreText(s: string)
    requires CompleteLines(s)
    ensures AllOneLine(LinesOf(s)) && Flat(LinesOf(s)) == s
  {
    SplitOneLine(s, 0);
    SplitJoins(s, 0);
    assert AllOneLine(Split(s));
    if s == "" { assert Split(s) == [""]; } else { SplitEndsEmpty(s, 0); }
  }

  lemma {:induction false} FlatConcat(a: seq<Line>, b: seq<Line>)
    ensures Flat(a + b) == Flat(a) + Flat(b)
    decreases |a|
  {
    if a == [] {
      assert a + b == b;
    } else {
      FlatConcat(a[1..], b);
      assert (a + b)[1..] == a[1..] + b;
    }
  }

  // ---------------------------------------------------------------- one hunk

  /** Complete lines, no separator line in the search, no end line in the replacement. */
  predicate Clean(m: Markers, h: Hunk) {
    && CompleteLines(h.search) && CompleteLines(h.replace)
    && m.separator !in LinesOf(h.search)
    && forall line <- LinesOf(h.replace) :: !IsEnd(m, line)
  }

  predicate PlainMarkers(m: Markers) {
    OneLine(m.search) && OneLine(m.separator) && OneLine(m.replace)
  }

  function HunkLines(m: Markers, h: Hunk): seq<Line> {
    [m.search] + LinesOf(h.search) + [m.separator] + LinesOf(h.replace) + [m.replace]
  }

  lemma {:induction false} MarkerAt(lines: seq<Line>, i: nat, at: nat, marker: Line)
    requires i <= at && at + 1 < |lines| && lines[at] == marker && forall n :: i <= n < at ==> lines[n] != marker
    ensures MarkerFrom(lines, i, marker) == at
    decreases at - i
  {
    if i < at { MarkerAt(lines, i + 1, at, marker); }
  }

  lemma {:induction false} EndAt(m: Markers, lines: seq<Line>, i: nat, at: nat)
    requires i <= at < |lines| && IsEnd(m, lines[at]) && forall n :: i <= n < at ==> !IsEnd(m, lines[n])
    ensures EndFrom(m, lines, i) == at
    decreases at - i
  {
    if i < at { EndAt(m, lines, i + 1, at); }
  }

  /** Where the parts of a hunk's lines stand. */
  predicate Layout(lines: seq<Line>, a: Line, s: seq<Line>, b: Line, r: seq<Line>, c: Line, rest: seq<Line>) {
    var j := 1 + |s|; var k := j + 1 + |r|;
    && |lines| == k + 1 + |rest| && lines[0] == a && lines[j] == b && lines[k] == c
    && lines[1..j] == s && lines[j + 1..k] == r && lines[k + 1..] == rest
  }

  lemma Cuts(a: Line, s: seq<Line>, b: Line, r: seq<Line>, c: Line, rest: seq<Line>)
    ensures Layout([a] + s + [b] + r + [c] + rest, a, s, b, r, c, rest)
  {
  }

  lemma SeparatorAt(lines: seq<Line>, a: Line, s: seq<Line>, b: Line, r: seq<Line>, c: Line, rest: seq<Line>)
    requires Layout(lines, a, s, b, r, c, rest) && b !in s
    ensures MarkerFrom(lines, 0, a) == 0 && MarkerFrom(lines, 1, b) == 1 + |s|
  {
    MarkerAt(lines, 0, 0, a);
    forall n | 1 <= n < 1 + |s| ensures lines[n] != b { assert lines[1..1 + |s|][n - 1] in s; }
    MarkerAt(lines, 1, 1 + |s|, b);
  }

  lemma EndPlace(m: Markers, lines: seq<Line>, a: Line, s: seq<Line>, b: Line, r: seq<Line>, c: Line, rest: seq<Line>)
    requires Layout(lines, a, s, b, r, c, rest) && IsEnd(m, c) && forall line <- r :: !IsEnd(m, line)
    ensures EndFrom(m, lines, 2 + |s|) == 2 + |s| + |r|
  {
    var j := 2 + |s|;
    forall n | j <= n < j + |r| ensures !IsEnd(m, lines[n]) { assert lines[j..j + |r|][n - j] in r; }
    EndAt(m, lines, j, j + |r|);
  }

  lemma NextPlace(m: Markers, lines: seq<Line>, i: nat, j: nat, k: nat)
    requires i < j < k < |lines|
    requires MarkerFrom(lines, 0, m.search) == i && MarkerFrom(lines, i + 1, m.separator) == j
             && EndFrom(m, lines, j + 1) == k
    ensures NextHunk(m, lines) == Some(Place(i, j, k))
  {
  }

  lemma ReadOn(m: Markers, lines: seq<Line>, p: Place, h: Hunk, rest: seq<Line>)
    requires NextHunk(m, lines) == Some(p) && HunkAt(lines, p) == h && lines[p.end + 1..] == rest
    ensures HunksBetween(m, lines) == [h] + HunksBetween(m, rest)
  {
  }

  lemma HunkIs(lines: seq<Line>, p: Place, s: seq<Line>, r: seq<Line>)
    requires p.search < p.separator < p.end < |lines|
    requires lines[p.search + 1..p.separator] == s && lines[p.separator + 1..p.end] == r
    ensures HunkAt(lines, p) == Hunk(Flat(s), Flat(r))
  {
  }

  lemma ReadNext(m: Markers, lines: seq<Line>, p: Place, s: seq<Line>, r: seq<Line>, rest: seq<Line>)
    requires NextHunk(m, lines) == Some(p) && lines[p.search + 1..p.separator] == s
             && lines[p.separator + 1..p.end] == r
    requires lines[p.end + 1..] == rest
    ensures HunksBetween(m, lines) == [Hunk(Flat(s), Flat(r))] + HunksBetween(m, rest)
  {
    HunkIs(lines, p, s, r);
    ReadOn(m, lines, p, Hunk(Flat(s), Flat(r)), rest);
  }

  /** A clean hunk in front of anything is the first hunk, and the rest is parsed after it. */
  lemma HunkFirst(m: Markers, h: Hunk, rest: seq<Line>)
    requires Clean(m, h)
    ensures HunksBetween(m, HunkLines(m, h) + rest) == [h] + HunksBetween(m, rest)
  {
    assert m.replace[|m.replace|..] == "";
    LinesAreText(h.search);
    LinesAreText(h.replace);
    Cuts(m.search, LinesOf(h.search), m.separator, LinesOf(h.replace), m.replace, rest);
    LaidOut(m, HunkLines(m, h) + rest, LinesOf(h.search), LinesOf(h.replace), rest);
  }

  lemma LaidOut(m: Markers, lines: seq<Line>, s: seq<Line>, r: seq<Line>, rest: seq<Line>)
    requires Layout(lines, m.search, s, m.separator, r, m.replace, rest)
    requires m.separator !in s && IsEnd(m, m.replace) && forall line <- r :: !IsEnd(m, line)
    ensures HunksBetween(m, lines) == [Hunk(Flat(s), Flat(r))] + HunksBetween(m, rest)
  {
    SeparatorAt(lines, m.search, s, m.separator, r, m.replace, rest);
    EndPlace(m, lines, m.search, s, m.separator, r, m.replace, rest);
    NextPlace(m, lines, 0, 1 + |s|, 2 + |s| + |r|);
    ReadNext(m, lines, Place(0, 1 + |s|, 2 + |s| + |r|), s, r, rest);
  }

  function AllLines(m: Markers, hunks: seq<Hunk>): seq<Line>
    decreases |hunks|
  {
    if hunks == [] then [] else HunkLines(m, hunks[0]) + AllLines(m, hunks[1..])
  }

  lemma {:induction false} HunksBack(m: Markers, hunks: seq<Hunk>, tail: seq<Line>)
    requires (forall h <- hunks :: Clean(m, h)) && HunksBetween(m, tail) == []
    ensures HunksBetween(m, AllLines(m, hunks) + tail) == hunks
    decreases |hunks|
  {
    if hunks == [] {
      assert AllLines(m, hunks) + tail == tail;
    } else {
      assert hunks[0] in hunks;
      HunksBack(m, hunks[1..], tail);
      HunkFirst(m, hunks[0], AllLines(m, hunks[1..]) + tail);
      assert AllLines(m, hunks) + tail == HunkLines(m, hunks[0]) + (AllLines(m, hunks[1..]) + tail);
      assert hunks == [hunks[0]] + hunks[1..];
    }
  }

  lemma OneFlat(line: Line)
    ensures Flat([line]) == line + "\n"
  {
    assert [line][1..] == [];
  }

  lemma HunkText(m: Markers, h: Hunk)
    requires PlainMarkers(m) && CompleteLines(h.search) && CompleteLines(h.replace)
    ensures AllOneLine(HunkLines(m, h)) && Flat(HunkLines(m, h)) == PrintHunk(m, h)
  {
    var s, r := LinesOf(h.search), LinesOf(h.replace);
    LinesAreText(h.search);
    LinesAreText(h.replace);
    FlatConcat([m.search] + s + [m.separator] + r, [m.replace]);
    FlatConcat([m.search] + s + [m.separator], r);
    FlatConcat([m.search] + s, [m.separator]);
    FlatConcat([m.search], s);
    OneFlat(m.search);
    OneFlat(m.separator);
    OneFlat(m.replace);
  }

  lemma {:induction false} HunksText(m: Markers, hunks: seq<Hunk>)
    requires PlainMarkers(m) && forall h <- hunks :: Clean(m, h)
    ensures AllOneLine(AllLines(m, hunks)) && Flat(AllLines(m, hunks)) == PrintHunks(m, hunks)
    decreases |hunks|
  {
    if hunks != [] {
      assert hunks[0] in hunks;
      HunkText(m, hunks[0]);
      HunksText(m, hunks[1..]);
      FlatConcat(HunkLines(m, hunks[0]), AllLines(m, hunks[1..]));
    }
  }

  lemma NoHunks(m: Markers, lines: seq<Line>)
    requires |lines| <= 1
    ensures HunksBetween(m, lines) == []
  {
  }

  lemma PrintedBack(m: Markers, hunks: seq<Hunk>)
    requires PlainMarkers(m) && forall h <- hunks :: Clean(m, h)
    ensures HunksBetween(m, Split(PrintHunks(m, hunks))) == hunks
  {
    HunksText(m, hunks);
    SplitFlat(AllLines(m, hunks), "");
    assert Flat(AllLines(m, hunks)) + "" == PrintHunks(m, hunks);
    assert Split("") == [""];
    NoHunks(m, [""]);
    HunksBack(m, hunks, [""]);
  }

  lemma RealMarkersArePlain()
    ensures PlainMarkers(MARKERS)
  {
  }

  /** One file: printing hunks and parsing them back returns the same hunks, in order, tagged as the fence says. */
  lemma OneFileRoundTrip(arg: string, hunks: seq<Hunk>, allowed: string -> bool)
    requires hunks != [] && (forall h <- hunks :: Clean(MARKERS, h)) && FileOf(Words(arg)) != ""
             && allowed(FileOf(Words(arg)))
    ensures ParseEditBlock(arg, PrintHunks(MARKERS, hunks), allowed)
            == Edits(Tagged(hunks, FileOf(Words(arg)), WantsAll(Words(arg))))
  {
    RealMarkersArePlain();
    PrintedBack(MARKERS, hunks);
  }

  // ---------------------------------------------------------------- when one hunk comes back

  lemma {:induction false} MarkerFirst(lines: seq<Line>, i: nat, at: nat, marker: Line)
    requires i <= at && at + 1 < |lines| && lines[at] == marker
    ensures MarkerFrom(lines, i, marker) <= at
    decreases at - i
  {
    if i < at && lines[i] != marker { MarkerFirst(lines, i + 1, at, marker); }
  }

  lemma {:induction false} EndFirst(m: Markers, lines: seq<Line>, i: nat, at: nat)
    requires i <= at < |lines| && IsEnd(m, lines[at])
    ensures EndFrom(m, lines, i) <= at
    decreases at - i
  {
    if i < at && !IsEnd(m, lines[i]) { EndFirst(m, lines, i + 1, at); }
  }

  lemma FlatLength(lines: seq<Line>, n: nat)
    requires n < |lines|
    ensures |Flat(lines[..n])| < |Flat(lines)|
  {
    assert lines[..n] + lines[n..] == lines;
    FlatConcat(lines[..n], lines[n..]);
  }

  /** A separator hidden in the search is taken for the separator: what is read is shorter. */
  lemma HiddenSeparator(m: Markers, lines: seq<Line>, s: seq<Line>, r: seq<Line>, n: nat)
    requires Layout(lines, m.search, s, m.separator, r, m.replace, [""]) && n < |s| && s[n] == m.separator
    ensures HunksBetween(m, lines) == [] || |HunksBetween(m, lines)[0].search| < |Flat(s)|
  {
    MarkerAt(lines, 0, 0, m.search);
    assert lines[1..1 + |s|][n] == lines[1 + n];
    MarkerFirst(lines, 1, n + 1, m.separator);
    var j := MarkerFrom(lines, 1, m.separator);
    assert lines[1..j] == lines[1..1 + |s|][..j - 1];
    FlatLength(s, j - 1);
    FirstRead(m, lines, j, s[..j - 1]);
  }

  lemma FirstRead(m: Markers, lines: seq<Line>, j: nat, s: seq<Line>)
    requires 0 < j < |lines| && MarkerFrom(lines, 0, m.search) == 0 && MarkerFrom(lines, 1, m.separator) == j
             && lines[1..j] == s
    ensures HunksBetween(m, lines) == [] || HunksBetween(m, lines)[0].search == Flat(s)
  {
    var k := EndFrom(m, lines, j + 1);
    if k < |lines| {
      NextPlace(m, lines, 0, j, k);
      ReadNext(m, lines, Place(0, j, k), s, lines[j + 1..k], lines[k + 1..]);
    }
  }

  lemma HiddenEnd(m: Markers, lines: seq<Line>, s: seq<Line>, r: seq<Line>, n: nat)
    requires Layout(lines, m.search, s, m.separator, r, m.replace, [""]) && m.separator !in s && n < |r|
             && IsEnd(m, r[n])
    ensures HunksBetween(m, lines) != [] && |HunksBetween(m, lines)[0].replace| < |Flat(r)|
  {
    SeparatorAt(lines, m.search, s, m.separator, r, m.replace, [""]);
    var j := 1 + |s|;
    assert lines[j + 1..j + 1 + |r|][n] == lines[j + 1 + n];
    EndFirst(m, lines, j + 1, j + 1 + n);
    var k := EndFrom(m, lines, j + 1);
    assert lines[j + 1..k] == lines[j + 1..j + 1 + |r|][..k - (j + 1)];
    FlatLength(r, k - (j + 1));
    NextPlace(m, lines, 0, j, k);
    ReadNext(m, lines, Place(0, j, k), s, r[..k - (j + 1)], lines[k + 1..]);
  }

  lemma ComesBackIff(m: Markers, h: Hunk)
    requires PlainMarkers(m) && CompleteLines(h.search) && CompleteLines(h.replace)
    ensures HunksBetween(m, Split(PrintHunk(m, h))) == [h] <==> Clean(m, h)
  {
    var s, r := LinesOf(h.search), LinesOf(h.replace);
    HunkText(m, h);
    SplitFlat(HunkLines(m, h), "");
    assert Flat(HunkLines(m, h)) + "" == PrintHunk(m, h);
    assert Split("") == [""];
    NoHunks(m, [""]);
    LinesAreText(h.search);
    LinesAreText(h.replace);
    Cuts(m.search, s, m.separator, r, m.replace, [""]);
    if Clean(m, h) {
      HunkFirst(m, h, [""]);
    } else if m.separator in s {
      var n :| 0 <= n < |s| && s[n] == m.separator;
      HiddenSeparator(m, HunkLines(m, h) + [""], s, r, n);
    } else {
      var n :| 0 <= n < |r| && IsEnd(m, r[n]);
      HiddenEnd(m, HunkLines(m, h) + [""], s, r, n);
    }
  }

  /**
   A hunk of complete lines comes back exactly when it hides no separator in its search and no end in its replacement.
   */
  lemma HunkComesBackIff(h: Hunk)
    requires CompleteLines(h.search) && CompleteLines(h.replace)
    ensures HunksIn(Split(PrintHunk(MARKERS, h))) == [h] <==> Clean(MARKERS, h)
  {
    RealMarkersArePlain();
    ComesBackIff(MARKERS, h);
  }

  // ---------------------------------------------------------------- several files

  predicate PlainWord(w: Word) {
    w != "" && forall c <- w :: !IsSpace(c)
  }

  predicate PlainWords(words: seq<Word>) {
    forall w <- words :: PlainWord(w)
  }

  lemma {:induction false} WordThrough(w: Word, started: Word, rest: string)
    requires forall c <- w :: !IsSpace(c)
    ensures WordsFrom(w + rest, started) == WordsFrom(rest, started + w)
    decreases |w|
  {
    if w == "" {
      assert w + rest == rest && started + w == started;
    } else {
      assert (w + rest)[1..] == w[1..] + rest && w[0] in w;
      WordThrough(w[1..], started + [w[0]], rest);
      assert started + [w[0]] + w[1..] == started + w;
    }
  }

  lemma {:induction false} WordsBack(words: seq<Word>)
    requires PlainWords(words)
    ensures Words(Joined(words)) == words
    decreases |words|
  {
    if |words| == 1 {
      assert words[0] in words;
      WordThrough(words[0], "", "");
      assert words[0] + "" == words[0] && "" + words[0] == words[0];
    } else if |words| > 1 {
      assert words[0] in words;
      WordsBack(words[1..]);
      var rest := " " + Joined(words[1..]);
      WordThrough(words[0], "", rest);
      assert "" + words[0] == words[0] && rest[1..] == Joined(words[1..]);
      assert words[0] + rest == Joined(words);
      assert words == [words[0]] + words[1..];
    }
  }

  lemma {:induction false} JoinedOneLine(words: seq<Word>)
    requires PlainWords(words)
    ensures OneLine(Joined(words)) && (words != [] ==> Joined(words) != "")
    decreases |words|
  {
    if words != [] {
      assert words[0] in words;
      JoinedOneLine(words[1..]);
    }
  }

  /** A file's name, its flag, its hunks; after the first hunk no line looks like a header. */
  predicate GoodFile(f: FileEdits) {
    && f.words != [] && PlainWords(f.words) && (!f.all ==> !WantsAll(f.words))
    && f.hunks != [] && (forall h <- f.hunks :: Clean(MARKERS, h))
    && forall h <- f.hunks[1..] :: NoHeaders(LinesOf(h.search)) && NoHeaders(LinesOf(h.replace))
  }

  predicate NoHeaders(lines: seq<Line>) {
    forall line <- lines :: !IsHeader(line)
  }

  lemma HeaderRead(words: seq<Word>)
    requires PlainWords(words) && words != []
    ensures var line := "--- " + Joined(words); OneLine(line) && HeaderWords(line) == words
  {
    var line := "--- " + Joined(words);
    JoinedOneLine(words);
    WordsBack(words);
    var tail := line[3..];
    assert tail[0] == ' ' && tail[1..] == Joined(words) && line[..3] == "---";
    assert Words(tail) == WordsFrom(tail[1..], "");
  }

  lemma HeaderBack(f: FileEdits)
    requires GoodFile(f)
    ensures OneLine(HeaderLine(f)) && IsHeader(HeaderLine(f))
    ensures Opened(HeaderLine(f)) == Section(Joined(f.words), f.all, []) && Joined(f.words) != ""
  {
    JoinedOneLine(f.words);
    if f.all {
      AllIsPlain();
      HeaderRead(f.words + ["all"]);
      FlagOff(f.words, "all");
    } else {
      assert f.words + [] == f.words;
      HeaderRead(f.words);
    }
  }

  lemma AllIsPlain()
    ensures PlainWord("all") && IsAll("all")
  {
  }

  lemma FlagOff(words: seq<Word>, w: Word)
    requires IsAll(w)
    ensures WantsAll(words + [w]) && FileOf(words + [w]) == Joined(words)
  {
    assert (words + [w])[..|words|] == words;
  }

  lemma MarkersAreNoHeaders()
    ensures !IsHeader(MARKERS.search) && !IsHeader(MARKERS.separator) && !IsHeader(MARKERS.replace)
  {
    assert MARKERS.search[0] != '-' && MARKERS.separator[0] != '-' && MARKERS.replace[0] != '-';
    assert "---"[0] == '-';
  }

  lemma {:induction false} HunkLinesNoHeaders(hunks: seq<Hunk>)
    requires forall h <- hunks :: NoHeaders(LinesOf(h.search)) && NoHeaders(LinesOf(h.replace))
    ensures NoHeaders(AllLines(MARKERS, hunks))
    decreases |hunks|
  {
    if hunks != [] {
      MarkersAreNoHeaders();
      assert hunks[0] in hunks;
      HunkLinesNoHeaders(hunks[1..]);
    }
  }

  lemma {:induction false} NoEnd(m: Markers, lines: seq<Line>, i: nat)
    requires i <= |lines| && forall n :: i <= n < |lines| ==> !IsEnd(m, lines[n])
    ensures EndFrom(m, lines, i) == |lines|
    decreases |lines| - i
  {
    if i < |lines| { NoEnd(m, lines, i + 1); }
  }

  lemma {:induction false} MarkerSeen(lines: seq<Line>, i: nat, from: nat, marker: Line)
    requires i <= from <= |lines| && forall n :: i <= n < from ==> lines[n] != marker
    ensures MarkerFrom(lines, i, marker) >= from
    decreases from - i
  {
    if i < from { MarkerSeen(lines, i + 1, from, marker); }
  }

  /** What comes before the separator, and after it. */
  lemma HunkParts(m: Markers, a: Line, s: seq<Line>, b: Line, r: seq<Line>, lines: seq<Line>)
    requires b !in s && forall line <- r :: !IsEnd(m, line)
    requires lines <= [a] + s + [b] + r
    ensures forall n :: 1 <= n < |lines| && n < 1 + |s| ==> lines[n] != b
    ensures forall n :: 2 + |s| <= n < |lines| ==> !IsEnd(m, lines[n])
  {
    var all := [a] + s + [b] + r;
    forall n | 1 <= n < |lines| && n < 1 + |s| ensures lines[n] != b { assert all[n] == s[n - 1] && s[n - 1] in s; }
    forall n | 2 + |s| <= n < |lines| ensures !IsEnd(m, lines[n]) {
      assert all[n] == r[n - 2 - |s|] && r[n - 2 - |s|] in r;
    }
  }

  /** Until its end marker, the first hunk is not complete. */
  lemma Unfinished(m: Markers, a: Line, s: seq<Line>, b: Line, r: seq<Line>, lines: seq<Line>)
    requires m.search == a && m.separator == b && b !in s && forall line <- r :: !IsEnd(m, line)
    requires lines <= [a] + s + [b] + r
    ensures HunksBetween(m, lines) == []
  {
    var i := MarkerFrom(lines, 0, a);
    if i < |lines| {
      assert lines[0] == a;
      MarkerFirst(lines, 0, 0, a);
      HunkParts(m, a, s, b, r, lines);
      MarkerSeen(lines, 1, if 1 + |s| <= |lines| then 1 + |s| else |lines|, b);
      var j := MarkerFrom(lines, 1, b);
      if j < |lines| { NoEnd(m, lines, j + 1); }
    }
  }

  /** While a section's lines open nothing, they are its body. */
  lemma {:induction false} BodyRead(file: string, all: bool, body: seq<Line>, n: nat, rest: seq<Line>)
    requires n <= |body|
    requires forall p :: n <= p < |body| ==> IsHeader(body[p]) ==> HunksIn(body[..p]) == []
    ensures SectionsFrom(body[n..] + rest, Some(Section(file, all, body[..n])))
            == SectionsFrom(rest, Some(Section(file, all, body)))
    decreases |body| - n
  {
    if n == |body| {
      assert body[n..] + rest == rest && body[..n] == body;
    } else {
      var lines := body[n..] + rest;
      assert lines[0] == body[n] && lines[1..] == body[n + 1..] + rest && body[..n] + [body[n]] == body[..n + 1];
      BodyRead(file, all, body, n + 1, rest);
    }
  }

  lemma BodyOpensNothing(f: FileEdits, p: nat)
    requires GoodFile(f) && p < |AllLines(MARKERS, f.hunks)| && IsHeader(AllLines(MARKERS, f.hunks)[p])
    ensures HunksIn(AllLines(MARKERS, f.hunks)[..p]) == []
  {
    var h := f.hunks[0];
    assert h in f.hunks;
    var s, r := LinesOf(h.search), LinesOf(h.replace);
    var first := HunkLines(MARKERS, h);
    var later := AllLines(MARKERS, f.hunks[1..]);
    HunkLinesNoHeaders(f.hunks[1..]);
    MarkersAreNoHeaders();
    LaterNoHeaders(first, later);
    assert p < |first|;
    PrefixOfHunk(MARKERS, h, later, p);
    Unfinished(MARKERS, MARKERS.search, s, MARKERS.separator, r, (first + later)[..p]);
  }

  lemma LaterNoHeaders(first: seq<Line>, later: seq<Line>)
    requires NoHeaders(later)
    ensures forall q :: |first| <= q < |first + later| ==> !IsHeader((first + later)[q])
  {
    forall q | |first| <= q < |first + later| ensures !IsHeader((first + later)[q]) {
      assert (first + later)[q] == later[q - |first|] && later[q - |first|] in later;
    }
  }

  lemma PrefixOfHunk(m: Markers, h: Hunk, later: seq<Line>, p: nat)
    requires p < |HunkLines(m, h)|
    ensures (HunkLines(m, h) + later)[..p] <= [m.search] + LinesOf(h.search) + [m.separator] + LinesOf(h.replace)
  {
  }

  function FileLines(files: seq<FileEdits>): seq<Line>
    decreases |files|
  {
    if files == [] then [] else [HeaderLine(files[0])] + AllLines(MARKERS, files[0].hunks) + FileLines(files[1..])
  }

  function SectionsOf(files: seq<FileEdits>): seq<Section>
    decreases |files|
  {
    if files == [] then []
    else
      var body := AllLines(MARKERS, files[0].hunks) + (if |files| == 1 then [""] else []);
      [Section(Joined(files[0].words), files[0].all, body)] + SectionsOf(files[1..])
  }

  lemma SectionRead(f: FileEdits, rest: seq<Line>)
    requires GoodFile(f)
    ensures SectionsFrom(AllLines(MARKERS, f.hunks) + rest, Some(Section(Joined(f.words), f.all, [])))
            == SectionsFrom(rest, Some(Section(Joined(f.words), f.all, AllLines(MARKERS, f.hunks))))
  {
    var body := AllLines(MARKERS, f.hunks);
    forall p | 0 <= p < |body| && IsHeader(body[p]) ensures HunksIn(body[..p]) == [] { BodyOpensNothing(f, p); }
    BodyRead(Joined(f.words), f.all, body, 0, rest);
    assert body[0..] == body && body[..0] == [];
  }

  lemma LastSection(file: string, all: bool, body: seq<Line>)
    ensures SectionsFrom([""], Some(Section(file, all, body))) == [Section(file, all, body + [""])]
  {
    assert [""][1..] == [];
  }

  lemma SectionOpens(line: Line, tail: seq<Line>, current: Option<Section>)
    requires Opens(current, line)
    ensures SectionsFrom([line] + tail, current) == Closed(current) + SectionsFrom(tail, Some(Opened(line)))
  {
    assert ([line] + tail)[1..] == tail;
  }

  lemma FilesShape(files: seq<FileEdits>)
    requires files != []
    ensures FileLines(files) + [""]
            == [HeaderLine(files[0])] + (AllLines(MARKERS, files[0].hunks) + (FileLines(files[1..]) + [""]))
  {
    Regroup([HeaderLine(files[0])], AllLines(MARKERS, files[0].hunks), FileLines(files[1..]), [""]);
  }

  lemma Regroup<T>(a: seq<T>, b: seq<T>, c: seq<T>, d: seq<T>)
    ensures a + b + c + d == a + (b + (c + d))
  {
  }

  lemma BodyComplete(f: FileEdits, tail: seq<Line>)
    requires GoodFile(f) && |tail| <= 1
    ensures HunksIn(AllLines(MARKERS, f.hunks) + tail) == f.hunks
  {
    NoHunks(MARKERS, tail);
    HunksBack(MARKERS, f.hunks, tail);
  }

  lemma {:induction false} SectionsRead(files: seq<FileEdits>, current: Option<Section>)
    requires files != [] && (forall f <- files :: GoodFile(f)) && (current.Some? ==> HunksIn(current.value.body) != [])
    ensures SectionsFrom(FileLines(files) + [""], current) == Closed(current) + SectionsOf(files)
    decreases |files|
  {
    var f := files[0];
    assert f in files;
    HeaderBack(f);
    FilesShape(files);
    var body := AllLines(MARKERS, f.hunks);
    var rest := FileLines(files[1..]) + [""];
    SectionOpens(HeaderLine(f), body + rest, current);
    SectionRead(f, rest);
    if |files| == 1 {
      assert rest == [""];
      LastSection(Joined(f.words), f.all, body);
    } else {
      BodyComplete(f, []);
      assert body + [] == body;
      SectionsRead(files[1..], Some(Section(Joined(f.words), f.all, body)));
    }
  }

  function EditsOfFiles(files: seq<FileEdits>): seq<Edit>
    decreases |files|
  {
    if files == [] then [] else Tagged(files[0].hunks, Joined(files[0].words), files[0].all) + EditsOfFiles(files[1..])
  }

  lemma {:induction false} SectionsGiveEdits(files: seq<FileEdits>, allowed: string -> bool)
    requires forall f <- files :: GoodFile(f) && allowed(Joined(f.words))
    ensures Named(SectionsOf(files)) == SectionsOf(files)
    ensures EditsOf(SectionsOf(files), allowed) == Edits(EditsOfFiles(files))
    decreases |files|
  {
    if files != [] {
      var f := files[0];
      assert f in files;
      HeaderBack(f);
      SectionsGiveEdits(files[1..], allowed);
      BodyComplete(f, if |files| == 1 then [""] else []);
      assert SectionsOf(files)[1..] == SectionsOf(files[1..]);
    }
  }

  lemma {:induction false} FilesText(files: seq<FileEdits>)
    requires forall f <- files :: GoodFile(f)
    ensures AllOneLine(FileLines(files)) && Flat(FileLines(files)) == PrintFiles(files)
    decreases |files|
  {
    if files != [] {
      var f := files[0];
      assert f in files;
      HeaderBack(f);
      RealMarkersArePlain();
      HunksText(MARKERS, f.hunks);
      FilesText(files[1..]);
      FlatConcat([HeaderLine(f)] + AllLines(MARKERS, f.hunks), FileLines(files[1..]));
      FlatConcat([HeaderLine(f)], AllLines(MARKERS, f.hunks));
      OneFlat(HeaderLine(f));
    }
  }

  lemma SectionsBack(files: seq<FileEdits>)
    requires files != [] && forall f <- files :: GoodFile(f)
    ensures SectionsFrom(Split(PrintFiles(files)), None) == SectionsOf(files)
  {
    FilesText(files);
    SplitFlat(FileLines(files), "");
    assert Flat(FileLines(files)) + "" == PrintFiles(files);
    assert Split("") == [""];
    SectionsRead(files, None);
  }

  /** Several files: printing each under its header and parsing back returns every hunk, in order, for its file. */
  lemma ManyFilesRoundTrip(arg: string, files: seq<FileEdits>, allowed: string -> bool)
    requires FileOf(Words(arg)) == "" && files != [] && forall f <- files :: GoodFile(f) && allowed(Joined(f.words))
    ensures ParseEditBlock(arg, PrintFiles(files), allowed) == Edits(EditsOfFiles(files))
  {
    SectionsBack(files);
    SectionsGiveEdits(files, allowed);
  }

  // ---------------------------------------------------------------- why a block is refused

  /** Its path is allowed and it has a hunk. */
  predicate Usable(s: Section, allowed: string -> bool) {
    allowed(s.file) && HunksIn(s.body) != []
  }

  /** The `k`-th section is the first of no use. */
  predicate FirstUnusable(sections: seq<Section>, allowed: string -> bool, k: nat) {
    k < |sections| && !Usable(sections[k], allowed) && forall j :: 0 <= j < k ==> Usable(sections[j], allowed)
  }

  function Unusable(sections: seq<Section>, allowed: string -> bool): (k: nat)
    ensures k <= |sections|
    ensures k < |sections| ==> FirstUnusable(sections, allowed, k)
    ensures k == |sections| ==> forall s <- sections :: Usable(s, allowed)
    decreases |sections|
  {
    if sections == [] || !Usable(sections[0], allowed) then 0
    else
      var k := 1 + Unusable(sections[1..], allowed);
      assert forall j :: 0 < j < |sections| ==> sections[j] == sections[1..][j - 1];
      k
  }

  lemma {:induction false} SectionsRefused(sections: seq<Section>, allowed: string -> bool)
    ensures var k := Unusable(sections, allowed);
            if k == |sections| then EditsOf(sections, allowed).Edits?
            else if !allowed(sections[k].file) then EditsOf(sections, allowed) == BadPath(sections[k].file)
            else EditsOf(sections, allowed) == NoHunk
    decreases |sections|
  {
    if sections != [] && Usable(sections[0], allowed) { SectionsRefused(sections[1..], allowed); }
  }

  /** Sections are refused for the first of them whose path is not allowed or which holds no hunk; others are edits. */
  lemma SectionsRefusedIff(sections: seq<Section>, allowed: string -> bool)
    ensures var action := EditsOf(sections, allowed);
            && (action.Edits? <==> forall s <- sections :: Usable(s, allowed))
            && (action.BadPath? <==> exists k: nat :: FirstUnusable(sections, allowed, k) && !allowed(sections[k].file))
            && (action.BadPath? ==>
                  exists k: nat :: FirstUnusable(sections, allowed, k) && action == BadPath(sections[k].file))
            && (action == NoHunk <==> exists k: nat :: FirstUnusable(sections, allowed, k) && allowed(sections[k].file))
  {
    SectionsRefused(sections, allowed);
    var k := Unusable(sections, allowed);
    if k < |sections| {
      assert FirstUnusable(sections, allowed, k) && sections[k] in sections;
      forall j: nat | FirstUnusable(sections, allowed, j) ensures j == k { }
    } else {
      forall j: nat ensures !FirstUnusable(sections, allowed, j) { assert j < |sections| ==> sections[j] in sections; }
    }
  }

  /** A block with a path on the fence is refused for that path, or because it holds no hunk. */
  lemma FencedBlockRefusedIff(arg: string, code: string, allowed: string -> bool, file: string, hunks: seq<Hunk>)
    requires file == FileOf(Words(arg)) && file != "" && hunks == HunksIn(Split(code))
    ensures var action := ParseEditBlock(arg, code, allowed);
            && (action == BadPath(file) <==> !allowed(file))
            && (action == NoHunk <==> allowed(file) && hunks == [])
            && (action.Edits? <==> allowed(file) && hunks != [])
  {
  }

  /** One without, because no header names a file, or as its sections are. */
  lemma HeadedBlockRefusedIff(arg: string, code: string, allowed: string -> bool, sections: seq<Section>)
    requires FileOf(Words(arg)) == "" && sections == SplitByFileHeader(code)
    ensures ParseEditBlock(arg, code, allowed) == if sections == [] then NoFile else EditsOf(sections, allowed)
    ensures sections != [] ==> ParseEditBlock(arg, code, allowed) != NoFile
  {
    SectionsRefused(sections, allowed);
  }
}

/** The parser's loops: a current section, pushed sections, pushed edits. */
module EditBlockParser {
  import opened Options
  import opened EditBlockSpec

  lemma Advance<T>(xs: seq<T>, n: nat)
    requires n < |xs|
    ensures xs[n..] != [] && xs[n..][0] == xs[n] && xs[n..][1..] == xs[n + 1..]
  {
  }

  method ReadSections(lines: seq<Line>) returns (sections: seq<Section>)
    ensures sections == SectionsFrom(lines, None)
  {
    sections := [];
    var current: Option<Section> := None;
    assert lines[0..] == lines;
    for n := 0 to |lines|
      invariant sections + SectionsFrom(lines[n..], current) == SectionsFrom(lines, None)
    {
      var line := lines[n];
      Advance(lines, n);
      if IsHeader(line) && (current.None? || HunksIn(current.value.body) != []) {
        if current.Some? { sections := sections + [current.value]; }
        current := Some(Opened(line));
      } else if current.Some? {
        current := Some(current.value.(body := current.value.body + [line]));
      }
    }
    assert lines[|lines|..] == [];
    if current.Some? { sections := sections + [current.value]; }
  }

  method DropUnnamed(sections: seq<Section>) returns (named: seq<Section>)
    ensures named == Named(sections)
  {
    named := [];
    assert sections[0..] == sections;
    for n := 0 to |sections|
      invariant named + Named(sections[n..]) == Named(sections)
    {
      Advance(sections, n);
      if sections[n].file != "" { named := named + [sections[n]]; }
    }
    assert sections[|sections|..] == [];
  }

  /** The edits already pushed, in front of what the rest of the sections give. */
  ghost function Before(edits: seq<Edit>, rest: Action): Action {
    if rest.Edits? then Edits(edits + rest.edits) else rest
  }

  lemma PushOne(edits: seq<Edit>, sections: seq<Section>, allowed: string -> bool)
    requires sections != [] && allowed(sections[0].file) && HunksIn(sections[0].body) != []
    ensures var s := sections[0];
            Before(edits, EditsOf(sections, allowed))
            == Before(edits + Tagged(HunksIn(s.body), s.file, s.all), EditsOf(sections[1..], allowed))
  {
    var s := sections[0];
    var rest := EditsOf(sections[1..], allowed);
    if rest.Edits? {
      assert edits + (Tagged(HunksIn(s.body), s.file, s.all) + rest.edits)
             == edits + Tagged(HunksIn(s.body), s.file, s.all) + rest.edits;
    }
  }

  method CollectEdits(sections: seq<Section>, allowed: string -> bool) returns (action: Action)
    ensures action == EditsOf(sections, allowed)
  {
    var edits: seq<Edit> := [];
    assert sections[0..] == sections && Before([], EditsOf(sections, allowed)) == EditsOf(sections, allowed);
    for n := 0 to |sections|
      invariant Before(edits, EditsOf(sections[n..], allowed)) == EditsOf(sections, allowed)
    {
      var s := sections[n];
      Advance(sections, n);
      if !allowed(s.file) { return BadPath(s.file); }
      var hunks := HunksIn(s.body);
      if hunks == [] { return NoHunk; }
      PushOne(edits, sections[n..], allowed);
      edits := edits + Tagged(hunks, s.file, s.all);
    }
    assert sections[|sections|..] == [];
    action := Edits(edits);
  }

  method Parse(arg: string, code: string, allowed: string -> bool) returns (action: Action)
    ensures action == ParseEditBlock(arg, code, allowed)
  {
    var words := Words(arg);
    var file := FileOf(words);
    if file != "" {
      if !allowed(file) { return BadPath(file); }
      var hunks := HunksIn(Split(code));
      if hunks == [] { return NoHunk; }
      return Edits(Tagged(hunks, file, WantsAll(words)));
    }
    var sections := ReadSections(Split(code));
    sections := DropUnnamed(sections);
    if sections == [] { return NoFile; }
    action := CollectEdits(sections, allowed);
  }
}
