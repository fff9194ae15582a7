/** Applying an edit block: every hunk is resolved on copies first, and nothing is written until all have succeeded. */
module ApplyEditsSpec {
  import opened Options

  type Path = string

  datatype Edit = Edit(file: Path, search: string, replace: string, all: bool)
  datatype Refusal = NoSuchFile(hunk: nat) | NotFound(hunk: nat) | Ambiguous(hunk: nat, occurrences: nat)

  /** The copies made so far and the replacements counted for each hunk. */
  datatype Work = Work(files: map<Path, string>, counts: seq<nat>)
  datatype Outcome = Done(work: Work) | Refused(why: Refusal)

  predicate At(s: string, t: string, j: nat) {
    j + |t| <= |s| && s[j..j + |t|] == t
  }

  /** The first place from `i` on where `t` stands in `s`; the length of `s` if nowhere. */
  function Find(s: string, t: string, i: nat): (r: nat)
    requires t != "" && i <= |s|
    ensures i <= r <= |s| && (r < |s| ==> At(s, t, r)) && (forall j: nat :: i <= j < r ==> !At(s, t, j))
    decreases |s| - i
  {
    if i == |s| || At(s, t, i) then i else Find(s, t, i + 1)
  }

  /** `s` cut at every occurrence of `t`, from left to right, without overlaps. */
  function Pieces(s: string, t: string): (r: seq<string>)
    requires t != ""
    ensures |r| > 0
    decreases |s|
  {
    var j := Find(s, t, 0);
    if j == |s| then [s] else [s[..j]] + Pieces(s[j + |t|..], t)
  }

  function Joined(pieces: seq<string>, r: string): string
    decreases |pieces|
  {
    if pieces == [] then "" else if |pieces| == 1 then pieces[0] else pieces[0] + r + Joined(pieces[1..], r)
  }

  function Occurrences(s: string, t: string): nat {
    if t == "" then 0 else |Pieces(s, t)| - 1
  }

  /** The replacement text with its dollar patterns worked out: a dollar, the match, the text before or after it. */
  function Expanded(r: string, before: string, match_: string, after: string): string
    decreases |r|
  {
    if |r| < 2 then r
    else if r[0] == '$' && r[1] == '$' then "$" + Expanded(r[2..], before, match_, after)
    else if r[0] == '$' && r[1] == '&' then match_ + Expanded(r[2..], before, match_, after)
    else if r[0] == '$' && r[1] == '`' then before + Expanded(r[2..], before, match_, after)
    else if r[0] == '$' && r[1] == '\'' then after + Expanded(r[2..], before, match_, after)
    else [r[0]] + Expanded(r[1..], before, match_, after)
  }

  function ReplaceFirst(s: string, t: string, r: string): string
    requires t != ""
  {
    var j := Find(s, t, 0);
    if j == |s| then s else s[..j] + Expanded(r, s[..j], t, s[j + |t|..]) + s[j + |t|..]
  }

  function Edited(content: string, e: Edit): string
    requires e.search != ""
  {
    if e.all then Joined(Pieces(content, e.search), e.replace) else ReplaceFirst(content, e.search, e.replace)
  }

  /** A hunk applies when its text is there, once unless `all` is asked for. */
  predicate Applies(content: string, e: Edit) {
    var n := Occurrences(content, e.search);
    n > 0 && (n == 1 || e.all)
  }

  function Current(disk: map<Path, string>, files: map<Path, string>, file: Path): Option<string> {
    if file in files then Some(files[file]) else if file in disk then Some(disk[file]) else None
  }

  function ApplyFrom(disk: map<Path, string>, edits: seq<Edit>, i: nat, work: Work): Outcome
    requires i <= |edits|
    decreases |edits| - i
  {
    if i == |edits| then Done(work)
    else
      var e := edits[i];
      var current := Current(disk, work.files, e.file);
      if current.None? then Refused(NoSuchFile(i))
      else
        var n := Occurrences(current.value, e.search);
        if n == 0 then Refused(NotFound(i))
        else if n > 1 && !e.all then Refused(Ambiguous(i, n))
        else ApplyFrom(disk, edits, i + 1,
            Work(work.files[e.file := Edited(current.value, e)], work.counts + [if e.all then n else 1]))
  }

  function ApplyEdits(disk: map<Path, string>, edits: seq<Edit>): Outcome {
    ApplyFrom(disk, edits, 0, Work(map[], []))
  }
}

/** All or nothing, in order, counted right. */
module ApplyEditsTheorems {
  import opened Options
  import opened ApplyEditsSpec

  // ---------------------------------------------------------------- occurrences

  /** Cutting at `t` and joining with `t` gives the text back. */
  lemma {:induction false} PiecesJoin(s: string, t: string)
    requires t != ""
    ensures Joined(Pieces(s, t), t) == s
    decreases |s|
  {
    var j := Find(s, t, 0);
    if j < |s| {
      PiecesJoin(s[j + |t|..], t);
      var rest := Pieces(s[j + |t|..], t);
      assert ([s[..j]] + rest)[1..] == rest;
      assert s == s[..j] + s[j..j + |t|] + s[j + |t|..];
    }
  }

  /** Replacing every occurrence changes the length by the difference, once for each. */
  lemma {:induction false} JoinLength(pieces: seq<string>, t: string, r: string)
    requires |pieces| > 0
    ensures |Joined(pieces, r)| == |Joined(pieces, t)| + (|pieces| - 1) * (|r| - |t|)
    decreases |pieces|
  {
    if |pieces| > 1 {
      JoinLength(pieces[1..], t, r);
      var n := |pieces| - 1;
      assert n * (|r| - |t|) == (n - 1) * (|r| - |t|) + (|r| - |t|);
    }
  }

  /** Exactly one occurrence is counted when the text stands somewhere and nowhere past the end of its first place. */
  lemma CountsOneIff(s: string, t: string)
    requires t != ""
    ensures Occurrences(s, t) == 1 <==>
            exists j: nat :: At(s, t, j) && (forall k: nat :: k < j ==> !At(s, t, k))
                && (forall k: nat :: k >= j + |t| ==> !At(s, t, k))
  {
    var j := Find(s, t, 0);
    if j < |s| {
      var rest := s[j + |t|..];
      ShiftedAt(s, t, j + |t|);
      var f := Find(rest, t, 0);
      assert Occurrences(s, t) == 1 + |Pieces(rest, t)| - 1;
      if f < |rest| {
        assert At(s, t, j + |t| + f);
      } else {
        forall k: nat | k >= j + |t| ensures !At(s, t, k) {
          var q: nat := k - (j + |t|);
          assert At(s, t, k) == At(rest, t, q);
        }
      }
    } else {
      assert forall k: nat :: At(s, t, k) ==> k < j;
    }
  }

  lemma ShiftedAt(s: string, t: string, n: nat)
    requires n <= |s|
    ensures forall k: nat :: At(s[n..], t, k) <==> At(s, t, n + k)
    ensures forall k: nat :: k >= n ==> (At(s, t, k) <==> At(s[n..], t, k - n))
  {
    forall k: nat ensures At(s[n..], t, k) <==> At(s, t, n + k) {
      if n + k + |t| <= |s| { assert s[n..][k..k + |t|] == s[n + k..n + k + |t|]; }
    }
  }

  /** Overlapping places count once: in "aaa" the text "aa" is taken for unique though it stands at two places. */
  lemma OverlapCountsOnce(s: string, t: string)
    requires s == "aaa" && t == "aa"
    ensures At(s, t, 0) && At(s, t, 1) && Occurrences(s, t) == 1
  {
    CountsOneIff(s, t);
    assert At(s, t, 0);
  }

  // ---------------------------------------------------------------- dollar patterns

  /** A dollar followed by a dollar, an ampersand, a backquote or a quote. */
  predicate Pattern(r: string, i: nat) {
    i + 1 < |r| && r[i] == '$' && r[i + 1] in {'$', '&', '`', '\''}
  }

  predicate Verbatim(r: string) {
    forall i: nat :: i < |r| ==> !Pattern(r, i)
  }

  lemma {:induction false} ExpandsToItself(r: string, before: string, m: string, after: string)
    requires Verbatim(r)
    ensures Expanded(r, before, m, after) == r
    decreases |r|
  {
    if |r| >= 2 {
      assert !Pattern(r, 0);
      forall i: nat | i < |r[1..]| ensures !Pattern(r[1..], i) { assert Pattern(r[1..], i) == Pattern(r, i + 1); }
      ExpandsToItself(r[1..], before, m, after);
    }
  }

  lemma {:induction false} Shrinks(r: string, m: string)
    requires |m| == 1
    ensures |Expanded(r, "", m, "")| <= |r|
    ensures !Verbatim(r) ==> |Expanded(r, "", m, "")| < |r|
    decreases |r|
  {
    if |r| >= 2 {
      if Pattern(r, 0) {
        Shrinks(r[2..], m);
      } else {
        Shrinks(r[1..], m);
        if !Verbatim(r) {
          var i: nat :| i < |r| && Pattern(r, i);
          assert Pattern(r[1..], i - 1);
        }
      }
    }
  }

  /** What a single replacement should do: put the text, as written, where the search text stood. */
  predicate PutsVerbatim(s: string, t: string, r: string)
    requires t != ""
  {
    var j := Find(s, t, 0);
    j < |s| ==> ReplaceFirst(s, t, r) == s[..j] + r + s[j + |t|..]
  }

  /**
   A replacement text is put in as written in every file and for every search exactly when it holds no dollar pattern.
   */
  lemma VerbatimIff(r: string)
    ensures (forall s, t :: t != "" ==> PutsVerbatim(s, t, r)) <==> Verbatim(r)
  {
    if Verbatim(r) {
      forall s, t | t != "" ensures PutsVerbatim(s, t, r) {
        var j := Find(s, t, 0);
        if j < |s| { ExpandsToItself(r, s[..j], t, s[j + |t|..]); }
      }
    } else {
      Shrinks(r, "x");
      var s, t := "x", "x";
      assert At(s, t, 0) && Find(s, t, 0) == 0;
      assert s[..0] == "" && s[1..] == "";
      assert |ReplaceFirst(s, t, r)| < |r|;
      assert !PutsVerbatim(s, t, r);
    }
  }

  // ---------------------------------------------------------------- one hunk

  /** The count reported for a hunk that applies. */
  function CountOf(content: string, e: Edit): nat {
    if e.all then Occurrences(content, e.search) else 1
  }

  lemma SingleLength(content: string, t: string, r: string, j: nat)
    requires t != "" && Verbatim(r) && j == Find(content, t, 0) && j < |content|
    ensures |ReplaceFirst(content, t, r)| == |content| + |r| - |t|
  {
    var before, after := content[..j], content[j + |t|..];
    ExpandsToItself(r, before, t, after);
    assert ReplaceFirst(content, t, r) == before + r + after;
  }

  lemma AllLength(content: string, t: string, r: string)
    requires t != ""
    ensures |Joined(Pieces(content, t), r)| == |content| + (|Pieces(content, t)| - 1) * (|r| - |t|)
  {
    PiecesJoin(content, t);
    JoinLength(Pieces(content, t), t, r);
  }

  lemma OccursFound(content: string, t: string)
    requires Occurrences(content, t) > 0
    ensures t != "" && Find(content, t, 0) < |content|
  {
  }

  /**
   The length changes by the count times the difference, unless a single replacement's text holds a dollar pattern.
   */
  lemma LengthLaw(content: string, e: Edit)
    requires Applies(content, e) && (e.all || Verbatim(e.replace))
    ensures |Edited(content, e)| == |content| + CountOf(content, e) * (|e.replace| - |e.search|)
  {
    OccursFound(content, e.search);
    if e.all { AllLength(content, e.search, e.replace); }
    else { SingleLength(content, e.search, e.replace, Find(content, e.search, 0)); }
  }

  // ---------------------------------------------------------------- the whole block

  /** The hunks of one file, in order. */
  function For(edits: seq<Edit>, file: Path): seq<Edit>
    decreases |edits|
  {
    if edits == [] then []
        else For(edits[..|edits| - 1], file) + (if edits[|edits| - 1].file == file then [edits[|edits| - 1]] else [])
  }

  type Editor = (string, Edit) -> string

  /** A hunk with nothing to search for never applies and changes nothing. */
  function Step(content: string, e: Edit): string {
    if e.search == "" then content else Edited(content, e)
  }

  /** One after another over the original content. */
  function Fold(f: Editor, content: string, edits: seq<Edit>): string
    decreases |edits|
  {
    if edits == [] then content else f(Fold(f, content, edits[..|edits| - 1]), edits[|edits| - 1])
  }

  /** The file's hunks, in order, folded over its original content. */
  function Result(f: Editor, disk: map<Path, string>, edits: seq<Edit>, file: Path): string
    requires file in disk
  {
    Fold(f, disk[file], For(edits, file))
  }

  function FilesOf(edits: seq<Edit>): set<Path> {
    set e | e in edits :: e.file
  }

  ghost predicate Folded(f: Editor, disk: map<Path, string>, edits: seq<Edit>, files: map<Path, string>) {
    forall file <- files :: file in disk && files[file] == Result(f, disk, edits, file)
  }

  /** Hunk `k` met content it applies to, and its count is the replacements made in it. */
  ghost predicate Fitted(f: Editor, disk: map<Path, string>, edits: seq<Edit>, k: nat, count: nat) {
    && k < |edits| && edits[k].file in disk
    && var met := Result(f, disk, edits[..k], edits[k].file); Applies(met, edits[k]) && count == CountOf(met, edits[k])
  }

  ghost predicate Counted(f: Editor, disk: map<Path, string>, edits: seq<Edit>, counts: seq<nat>) {
    forall k: nat :: k < |counts| ==> Fitted(f, disk, edits, k, counts[k])
  }

  /** The first `i` hunks have been applied. */
  ghost predicate Through(f: Editor, disk: map<Path, string>, edits: seq<Edit>, i: nat, work: Work)
    requires i <= |edits|
  {
    && |work.counts| == i && work.files.Keys == FilesOf(edits[..i]) && Folded(f, disk, edits[..i], work.files)
    && Counted(f, disk, edits, work.counts)
  }

  lemma ForStep(edits: seq<Edit>, i: nat, file: Path)
    requires i < |edits|
    ensures For(edits[..i + 1], file) == For(edits[..i], file) + (if edits[i].file == file then [edits[i]] else [])
  {
    assert edits[..i + 1][..i] == edits[..i];
  }

  lemma {:induction false} ForNone(edits: seq<Edit>, file: Path)
    requires file !in FilesOf(edits)
    ensures For(edits, file) == []
    decreases |edits|
  {
    if edits != [] {
      assert edits[|edits| - 1] in edits;
      ForNone(edits[..|edits| - 1], file);
    }
  }

  lemma FilesMore(edits: seq<Edit>, i: nat)
    requires i < |edits|
    ensures FilesOf(edits[..i + 1]) == FilesOf(edits[..i]) + {edits[i].file}
  {
    assert edits[..i + 1] == edits[..i] + [edits[i]];
  }

  lemma ResultStep(f: Editor, disk: map<Path, string>, edits: seq<Edit>, i: nat, file: Path)
    requires i < |edits| && file in disk
    ensures Result(f, disk, edits[..i + 1], file)
            == if file == edits[i].file then f(Result(f, disk, edits[..i], file), edits[i])
                else Result(f, disk, edits[..i], file)
  {
    ForStep(edits, i, file);
    var before := For(edits[..i], file);
    if file == edits[i].file {
      assert (before + [edits[i]])[..|before|] == before;
    } else {
      assert before + [] == before;
    }
  }

  lemma CurrentIsResult(f: Editor, disk: map<Path, string>, edits: seq<Edit>, i: nat, files: map<Path, string>)
    requires i < |edits| && files.Keys == FilesOf(edits[..i]) && Folded(f, disk, edits[..i], files)
    requires Current(disk, files, edits[i].file).Some?
    ensures edits[i].file in disk
            && Current(disk, files, edits[i].file).value == Result(f, disk, edits[..i], edits[i].file)
  {
    if edits[i].file !in files { ForNone(edits[..i], edits[i].file); }
  }

  lemma FileStep(f: Editor, disk: map<Path, string>, edits: seq<Edit>, i: nat, files: map<Path, string>,
      content: string, file: Path)
    requires i < |edits| && edits[i].file in disk && content == Result(f, disk, edits[..i], edits[i].file)
    requires file == edits[i].file
             || (file in files && file in disk && files[file] == Result(f, disk, edits[..i], file))
    ensures file in disk && files[edits[i].file := f(content, edits[i])][file] == Result(f, disk, edits[..i + 1], file)
  {
    ResultStep(f, disk, edits, i, file);
  }

  lemma FoldedStep(f: Editor, disk: map<Path, string>, edits: seq<Edit>, i: nat, files: map<Path, string>,
      content: string)
    requires i < |edits| && Folded(f, disk, edits[..i], files)
    requires edits[i].file in disk && content == Result(f, disk, edits[..i], edits[i].file)
    ensures Folded(f, disk, edits[..i + 1], files[edits[i].file := f(content, edits[i])])
  {
    forall file | file in files || file == edits[i].file
      ensures file in disk
              && files[edits[i].file := f(content, edits[i])][file] == Result(f, disk, edits[..i + 1], file)
    {
      FileStep(f, disk, edits, i, files, content, file);
    }
  }

  lemma CountedMore(f: Editor, disk: map<Path, string>, edits: seq<Edit>, counts: seq<nat>, count: nat)
    requires Counted(f, disk, edits, counts) && Fitted(f, disk, edits, |counts|, count)
    ensures Counted(f, disk, edits, counts + [count])
  {
    forall k: nat | k < |counts| + 1 ensures Fitted(f, disk, edits, k, (counts + [count])[k]) {
      if k < |counts| { assert Fitted(f, disk, edits, k, counts[k]); }
    }
  }

  lemma KeysMore(edits: seq<Edit>, i: nat, files: map<Path, string>, content: string)
    requires i < |edits| && files.Keys == FilesOf(edits[..i])
    ensures files[edits[i].file := content].Keys == FilesOf(edits[..i + 1])
  {
    FilesMore(edits, i);
    assert files[edits[i].file := content].Keys == files.Keys + {edits[i].file};
  }

  lemma OneMore(f: Editor, disk: map<Path, string>, edits: seq<Edit>, i: nat, work: Work, content: string)
    requires i < |edits| && Through(f, disk, edits, i, work)
             && Current(disk, work.files, edits[i].file) == Some(content)
    requires Applies(content, edits[i])
    ensures Through(f, disk, edits, i + 1,
            Work(work.files[edits[i].file := f(content, edits[i])], work.counts + [CountOf(content, edits[i])]))
  {
    CurrentIsResult(f, disk, edits, i, work.files);
    FoldedStep(f, disk, edits, i, work.files, content);
    KeysMore(edits, i, work.files, f(content, edits[i]));
    CountedMore(f, disk, edits, work.counts, CountOf(content, edits[i]));
  }

  lemma {:induction false} AppliedThrough(disk: map<Path, string>, edits: seq<Edit>, i: nat, work: Work)
    requires i <= |edits| && Through(Step, disk, edits, i, work) && ApplyFrom(disk, edits, i, work).Done?
    ensures Through(Step, disk, edits, |edits|, ApplyFrom(disk, edits, i, work).work)
    decreases |edits| - i
  {
    if i < |edits| {
      var e := edits[i];
      var content := Current(disk, work.files, e.file).value;
      OneMore(Step, disk, edits, i, work, content);
      assert Step(content, e) == Edited(content, e);
      AppliedThrough(disk, edits, i + 1,
          Work(work.files[e.file := Edited(content, e)], work.counts + [CountOf(content, e)]));
    }
  }

  /**
   When a block succeeds, each touched file holds its hunks, in order, folded over its original content; each hunk met
   its text exactly once unless it asked for all; and the counts are the replacements made.
   */
  lemma AppliedInOrder(disk: map<Path, string>, edits: seq<Edit>)
    requires ApplyEdits(disk, edits).Done?
    ensures var work := ApplyEdits(disk, edits).work;
            && |work.counts| == |edits| && work.files.Keys == FilesOf(edits)
            && (forall file <- work.files :: file in disk && work.files[file] == Result(Step, disk, edits, file))
            && Counted(Step, disk, edits, work.counts)
  {
    AppliedThrough(disk, edits, 0, Work(map[], []));
    assert edits[..|edits|] == edits;
  }

  // ---------------------------------------------------------------- why a block is refused

  /** Hunk `k` applies to what its file has become by then. */
  ghost predicate Fits(disk: map<Path, string>, edits: seq<Edit>, k: nat) {
    && k < |edits| && edits[k].file in disk
    && Applies(Result(Step, disk, edits[..k], edits[k].file), edits[k])
  }

  /**
   Hunk `k` does not, for this reason: no such file, its text nowhere in it, or at several places and one was meant.
   */
  ghost predicate Unfit(disk: map<Path, string>, edits: seq<Edit>, k: nat, why: Refusal) {
    && k < |edits|
    && if edits[k].file !in disk then why == NoSuchFile(k)
       else
         var n := Occurrences(Result(Step, disk, edits[..k], edits[k].file), edits[k].search);
         if n == 0 then why == NotFound(k) else n > 1 && !edits[k].all && why == Ambiguous(k, n)
  }

  lemma MissingFile(disk: map<Path, string>, edits: seq<Edit>, i: nat, files: map<Path, string>)
    requires i < |edits| && Folded(Step, disk, edits[..i], files)
    requires Current(disk, files, edits[i].file).None?
    ensures edits[i].file !in disk
  {
  }

  lemma {:induction false} RefusedThrough(disk: map<Path, string>, edits: seq<Edit>, i: nat, work: Work)
    returns (k: nat)
    requires i <= |edits| && Through(Step, disk, edits, i, work) && ApplyFrom(disk, edits, i, work).Refused?
    requires forall j: nat :: j < i ==> Fits(disk, edits, j)
    ensures Unfit(disk, edits, k, ApplyFrom(disk, edits, i, work).why)
    ensures forall j: nat :: j < k ==> Fits(disk, edits, j)
    decreases |edits| - i
  {
    var e := edits[i];
    var current := Current(disk, work.files, e.file);
    if current.None? {
      MissingFile(disk, edits, i, work.files);
      k := i;
    } else {
      var content := current.value;
      CurrentIsResult(Step, disk, edits, i, work.files);
      if Applies(content, e) {
        OneMore(Step, disk, edits, i, work, content);
        assert Step(content, e) == Edited(content, e);
        k := RefusedThrough(disk, edits, i + 1,
            Work(work.files[e.file := Edited(content, e)], work.counts + [CountOf(content, e)]));
      } else {
        k := i;
      }
    }
  }

  /** Hunk `k` is the first that does not fit. */
  ghost predicate FirstUnfit(disk: map<Path, string>, edits: seq<Edit>, k: nat, why: Refusal) {
    Unfit(disk, edits, k, why) && forall j: nat :: j < k ==> Fits(disk, edits, j)
  }

  lemma UnfitIsNotFit(disk: map<Path, string>, edits: seq<Edit>, k: nat, why: Refusal)
    requires Unfit(disk, edits, k, why)
    ensures !Fits(disk, edits, k)
  {
  }

  lemma OneReason(disk: map<Path, string>, edits: seq<Edit>, k: nat, a: Refusal, b: Refusal)
    requires Unfit(disk, edits, k, a) && Unfit(disk, edits, k, b)
    ensures a == b
  {
  }

  lemma OneFirst(disk: map<Path, string>, edits: seq<Edit>, j: nat, k: nat, a: Refusal, b: Refusal)
    requires FirstUnfit(disk, edits, j, a) && FirstUnfit(disk, edits, k, b)
    ensures j == k && a == b
  {
    UnfitIsNotFit(disk, edits, j, a);
    UnfitIsNotFit(disk, edits, k, b);
    OneReason(disk, edits, j, a, b);
  }

  lemma DoneFits(disk: map<Path, string>, edits: seq<Edit>, k: nat)
    requires ApplyEdits(disk, edits).Done? && k < |edits|
    ensures Fits(disk, edits, k)
  {
    AppliedInOrder(disk, edits);
    assert Fitted(Step, disk, edits, k, ApplyEdits(disk, edits).work.counts[k]);
  }

  lemma RefusedFirst(disk: map<Path, string>, edits: seq<Edit>) returns (k: nat)
    requires ApplyEdits(disk, edits).Refused?
    ensures FirstUnfit(disk, edits, k, ApplyEdits(disk, edits).why)
  {
    assert edits[..0] == [] && Through(Step, disk, edits, 0, Work(map[], []));
    k := RefusedThrough(disk, edits, 0, Work(map[], []));
  }

  /** A block is refused if and only if some hunk does not fit, and then for the first that does not. */
  lemma RefusedIff(disk: map<Path, string>, edits: seq<Edit>, why: Refusal)
    ensures ApplyEdits(disk, edits) == Refused(why) <==> exists k: nat :: FirstUnfit(disk, edits, k, why)
  {
    if k: nat :| FirstUnfit(disk, edits, k, why) {
      UnfitIsNotFit(disk, edits, k, why);
      if ApplyEdits(disk, edits).Done? { DoneFits(disk, edits, k); }
      var j := RefusedFirst(disk, edits);
      OneFirst(disk, edits, j, k, ApplyEdits(disk, edits).why, why);
    } else if ApplyEdits(disk, edits).Refused? {
      var j := RefusedFirst(disk, edits);
    }
  }

  // ---------------------------------------------------------------- what a dollar pattern puts in

  lemma ExpandPlain(c: char, rest: string, before: string, m: string, after: string)
    requires c != '$' && rest != ""
    ensures Expanded([c] + rest, before, m, after) == [c] + Expanded(rest, before, m, after)
  {
    assert ([c] + rest)[1..] == rest;
  }

  lemma ExpandPattern(c: char, rest: string, before: string, m: string, after: string)
    requires c in {'$', '&', '`', '\''}
    ensures Expanded(['$', c] + rest, before, m, after) == Means(c, before, m, after) + Expanded(rest, before, m, after)
  {
    assert (['$', c] + rest)[2..] == rest;
  }

  lemma Front(u: string, rest: string)
    requires u != ""
    ensures u + rest == [u[0]] + (u[1..] + rest)
  {
  }

  lemma {:induction false} PlainFirst(u: string, rest: string, before: string, m: string, after: string)
    requires (forall i :: 0 <= i < |u| ==> u[i] != '$') && rest != ""
    ensures Expanded(u + rest, before, m, after) == u + Expanded(rest, before, m, after)
    decreases |u|
  {
    var end := Expanded(rest, before, m, after);
    if u == "" {
      assert u + rest == rest && u + end == end;
    } else {
      PlainFirst(u[1..], rest, before, m, after);
      ExpandPlain(u[0], u[1..] + rest, before, m, after);
      Front(u, rest);
      Front(u, end);
    }
  }

  /** What stands for a dollar and this character: a dollar, the text found, what was before it, or what was after. */
  function Means(c: char, before: string, m: string, after: string): string
    requires c in {'$', '&', '`', '\''}
  {
    if c == '$' then "$" else if c == '&' then m else if c == '`' then before else after
  }

  lemma PlainIsVerbatim(v: string)
    requires forall i :: 0 <= i < |v| ==> v[i] != '$'
    ensures Verbatim(v)
  {
  }

  lemma ExpandedOnce(u: string, c: char, v: string, before: string, m: string, after: string)
    requires (forall i :: 0 <= i < |u| ==> u[i] != '$') && (forall i :: 0 <= i < |v| ==> v[i] != '$')
    requires c in {'$', '&', '`', '\''}
    ensures Expanded(u + (['$', c] + v), before, m, after) == u + (Means(c, before, m, after) + v)
  {
    PlainFirst(u, ['$', c] + v, before, m, after);
    ExpandPattern(c, v, before, m, after);
    PlainIsVerbatim(v);
    ExpandsToItself(v, before, m, after);
  }

  lemma ReplacesWith(s: string, t: string, r: string, j: nat, x: string)
    requires t != "" && j == Find(s, t, 0) < |s| && Expanded(r, s[..j], t, s[j + |t|..]) == x
    ensures ReplaceFirst(s, t, r) == s[..j] + x + s[j + |t|..]
  {
  }

  /** A single replacement whose text holds one pattern puts in what that stands for, where the text was first found. */
  lemma DollarMeans(s: string, t: string, u: string, c: char, v: string, j: nat)
    requires t != "" && j == Find(s, t, 0) < |s| && c in {'$', '&', '`', '\''}
    requires (forall i :: 0 <= i < |u| ==> u[i] != '$') && (forall i :: 0 <= i < |v| ==> v[i] != '$')
    ensures ReplaceFirst(s, t, u + (['$', c] + v))
            == s[..j] + (u + (Means(c, s[..j], t, s[j + |t|..]) + v)) + s[j + |t|..]
  {
    ExpandedOnce(u, c, v, s[..j], t, s[j + |t|..]);
    ReplacesWith(s, t, u + (['$', c] + v), j, u + (Means(c, s[..j], t, s[j + |t|..]) + v));
  }
}

/** The edit loop over files on disk. */
module ApplyEditsObject {
  import opened Options
  import opened ApplyEditsSpec

  class Worktree {
    var disk: map<Path, string>

    constructor (files: map<Path, string>)
      ensures disk == files
    {
      disk := files;
    }

    /** Resolves every hunk on copies, then writes the copies; a refusal writes nothing. */
    method Apply(edits: seq<Edit>) returns (outcome: Outcome)
      modifies this
      ensures outcome == ApplyEdits(old(disk), edits)
      ensures disk == if outcome.Done? then old(disk) + outcome.work.files else old(disk)
    {
      var files: map<Path, string> := map[];
      var counts: seq<nat> := [];
      for i := 0 to |edits|
        invariant disk == old(disk) && ApplyFrom(disk, edits, i, Work(files, counts)) == ApplyEdits(disk, edits)
      {
        var e := edits[i];
        var current := Current(disk, files, e.file);
        if current.None? { return Refused(NoSuchFile(i)); }
        var n := Occurrences(current.value, e.search);
        if n == 0 { return Refused(NotFound(i)); }
        if n > 1 && !e.all { return Refused(Ambiguous(i, n)); }
        files := files[e.file := Edited(current.value, e)];
        counts := counts + [if e.all then n else 1];
      }
      var left := files.Keys;
      while left != {}
        invariant left <= files.Keys && disk == old(disk) + (map file | file in files && file !in left :: files[file])
        decreases |left|
      {
        var file :| file in left;
        disk := disk[file := files[file]];
        left := left - {file};
      }
      outcome := Done(Work(files, counts));
    }
  }
}
