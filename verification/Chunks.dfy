/** A file's text as overlapping windows of lines. */
module Chunking {
  const CHUNK_LINES := 60
  const CHUNK_OVERLAP := 10

  /** Lines `start` to `end`, counted from one, both included. */
  datatype Chunk = Chunk(start: nat, end: nat, text: seq<string>)

  predicate AllBlank(lines: seq<string>, blank: string -> bool) {
    forall line <- lines :: blank(line)
  }

  /** A window: sixty lines, or what is left, from a multiple of fifty, and something in it. */
  predicate Window(lines: seq<string>, blank: string -> bool, c: Chunk) {
    && 1 <= c.start <= c.end <= |lines| && (c.start - 1) % (CHUNK_LINES - CHUNK_OVERLAP) == 0
    && (c.end == c.start - 1 + CHUNK_LINES || (c.end == |lines| && c.end < c.start - 1 + CHUNK_LINES))
    && c.text == lines[c.start - 1..c.end] && !AllBlank(c.text, blank)
  }

  predicate Covers(chunks: seq<Chunk>, i: nat) {
    exists c <- chunks :: c.start - 1 <= i < c.end
  }

  lemma CoversMore(chunks: seq<Chunk>, c: Chunk, i: nat)
    requires Covers(chunks, i) || c.start - 1 <= i < c.end
    ensures Covers(chunks + [c], i)
  {
    if Covers(chunks, i) {
      var d :| d in chunks && d.start - 1 <= i < d.end;
      assert d in chunks + [c];
    } else {
      assert c in chunks + [c];
    }
  }

  /** Every line before `n` with something in it is covered. */
  ghost predicate CoveredTo(lines: seq<string>, blank: string -> bool, chunks: seq<Chunk>, n: nat) {
    n <= |lines| && forall i: nat {:trigger Covers(chunks, i)} :: i < n && !blank(lines[i]) ==> Covers(chunks, i)
  }

  ghost predicate InOrder(lines: seq<string>, blank: string -> bool, chunks: seq<Chunk>, next: nat) {
    && (forall c <- chunks :: Window(lines, blank, c) && c.start <= next)
    && (forall i, j :: 0 <= i < j < |chunks| ==> chunks[i].start < chunks[j].start)
  }

  lemma WindowCovers(lines: seq<string>, blank: string -> bool, chunks: seq<Chunk>, start: nat, end: nat)
    requires start <= end <= |lines| && CoveredTo(lines, blank, chunks, start)
    ensures AllBlank(lines[start..end], blank) ==> CoveredTo(lines, blank, chunks, end)
    ensures CoveredTo(lines, blank, chunks + [Chunk(start + 1, end, lines[start..end])], end)
  {
    forall i: nat | i < end && !blank(lines[i])
      ensures Covers(chunks + [Chunk(start + 1, end, lines[start..end])], i)
      ensures AllBlank(lines[start..end], blank) ==> Covers(chunks, i)
    {
      if i >= start { assert lines[start..end][i - start] == lines[i]; }
      CoversMore(chunks, Chunk(start + 1, end, lines[start..end]), i);
    }
  }

  lemma WindowInOrder(lines: seq<string>, blank: string -> bool, chunks: seq<Chunk>, start: nat, c: Chunk)
    requires InOrder(lines, blank, chunks, start) && Window(lines, blank, c) && c.start == start + 1
    ensures InOrder(lines, blank, chunks + [c], start + 1)
  {
  }

  /** A window begins at the first line, or fifty lines on while more than the overlap is left. */
  predicate Begins(lines: seq<string>, s: nat) {
    s < |lines| && s % (CHUNK_LINES - CHUNK_OVERLAP) == 0 && (s == 0 || s + CHUNK_OVERLAP < |lines|)
  }

  function EndOf(lines: seq<string>, s: nat): nat {
    if s + CHUNK_LINES < |lines| then s + CHUNK_LINES else |lines|
  }

  predicate Has(chunks: seq<Chunk>, s: nat) {
    exists c <- chunks :: c.start == s + 1
  }

  /** Every window that begins before `n` and is not blank is there. */
  ghost predicate AllTaken(lines: seq<string>, blank: string -> bool, chunks: seq<Chunk>, n: nat) {
    forall s: nat {:trigger Has(chunks, s)} ::
      s < n && Begins(lines, s) && !AllBlank(lines[s..EndOf(lines, s)], blank) ==> Has(chunks, s)
  }

  lemma OneTaken(lines: seq<string>, blank: string -> bool, chunks: seq<Chunk>, start: nat, next: nat, c: Chunk)
    requires AllTaken(lines, blank, chunks, start) && Begins(lines, start) && c.start == start + 1
    requires forall s: nat :: start < s < next && s % 50 == 0 ==> !Begins(lines, s)
    ensures AllTaken(lines, blank, chunks + [c], next)
    ensures AllBlank(lines[start..EndOf(lines, start)], blank) ==> AllTaken(lines, blank, chunks, next)
  {
    forall s: nat | s < next && Begins(lines, s) && !AllBlank(lines[s..EndOf(lines, s)], blank)
      ensures Has(chunks + [c], s) && (AllBlank(lines[start..EndOf(lines, start)], blank) ==> Has(chunks, s))
    {
      if s < start {
        assert Has(chunks, s);
        var d :| d in chunks && d.start == s + 1;
        assert d in chunks + [c];
      } else {
        assert s == start && c in chunks + [c];
      }
    }
  }

  lemma NoneTaken(lines: seq<string>, blank: string -> bool)
    requires AllBlank(lines, blank)
    ensures AllTaken(lines, blank, [], |lines|)
  {
  }

  /** The next window begins fifty lines on, or nowhere. */
  lemma NothingBetween(lines: seq<string>, start: nat, next: nat)
    requires Begins(lines, start)
    requires next == if EndOf(lines, start) < |lines| then start + 50 else |lines|
    ensures forall s: nat :: start < s < next && s % 50 == 0 ==> !Begins(lines, s)
    ensures EndOf(lines, start) < |lines| ==> Begins(lines, start + 50)
  {
  }

  /**
   Every line with something in it falls in a window. The windows are exactly those that begin at the first line, or
   fifty lines on while more than the overlap is left, and are not blank; they follow each other in order.
   */
  method ChunkText(lines: seq<string>, blank: string -> bool) returns (chunks: seq<Chunk>)
    requires |lines| > 0
    ensures InOrder(lines, blank, chunks, |lines|)
    ensures CoveredTo(lines, blank, chunks, |lines|)
    ensures AllTaken(lines, blank, chunks, |lines|) && forall c <- chunks :: Begins(lines, c.start - 1)
  {
    chunks := [];
    if AllBlank(lines, blank) {
      NoneTaken(lines, blank);
      return;
    }
    var start := 0;
    while true
      invariant start < |lines| && Begins(lines, start)
      invariant InOrder(lines, blank, chunks, start) && CoveredTo(lines, blank, chunks, start)
      invariant AllTaken(lines, blank, chunks, start) && forall c <- chunks :: Begins(lines, c.start - 1)
      decreases |lines| - start
    {
      var end := if start + CHUNK_LINES < |lines| then start + CHUNK_LINES else |lines|;
      var text := lines[start..end];
      WindowCovers(lines, blank, chunks, start, end);
      ghost var next := if end < |lines| then start + 50 else |lines|;
      NothingBetween(lines, start, next);
      OneTaken(lines, blank, chunks, start, next, Chunk(start + 1, end, text));
      if !AllBlank(text, blank) {
        WindowInOrder(lines, blank, chunks, start, Chunk(start + 1, end, text));
        chunks := chunks + [Chunk(start + 1, end, text)];
      }
      if end >= |lines| { return; }
      start := end - CHUNK_OVERLAP;
    }
  }
}
