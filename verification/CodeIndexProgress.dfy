/** How far a sweep gets: what ends it, and when it indexes everything there is. */
module CodeIndexProgress {
  import opened Options
  import opened CodeIndexSpec
  import opened OrderingTheorems
  import opened CodeIndexTheorems

  // ---------------------------------------------------------------- what ends a sweep

  /** There is a deadline, and nothing is left of it. */
  predicate Late(left: Option<int>) {
    left.Some? && left.value <= 0
  }

  /**
   The visit is the sweep's last: it embedded a changed text file and the clock had run out by then, or nothing ran out
   and the sweep was short of room, for this file or for one before.
   */
  predicate Halts(w: World, before: Ledger, s: Sweep, path: Path) {
    !Unchanged(w, before, path) && w.files(path).Text?
    && var chunks := w.files(path).chunks;
       var (p, ranOut) := EmbedRest(w, path, Budgeted(w, s, chunks), 0, Emptied(w, before, s, path));
       if ranOut then Late(w.env.clock(p.looks)) else s.stats.capped || |Budgeted(w, s, chunks)| < |chunks|
  }

  /** So a file that is unchanged, unreadable or unfit never ends a sweep. */
  lemma VisitStopsIff(w: World, before: Ledger, s: Sweep, path: Path)
    ensures Visit(w, before, s, path).1 <==> Halts(w, before, s, path)
  {
  }

  /** The visits from the `i`-th path up to the `j`-th, one after another. */
  function VisitedTo(w: World, before: Ledger, paths: seq<Path>, i: nat, j: nat, s: Sweep): Sweep
    requires i <= j <= |paths|
    decreases j - i
  {
    if i == j then s else VisitedTo(w, before, paths, i + 1, j, Visit(w, before, s.(looks := s.looks + 1), paths[i]).0)
  }

  /**
   Why a sweep goes no further than the `j`-th path: `t` is how things stand there, `last` how before the last visit.
   */
  predicate Ends(w: World, before: Ledger, paths: seq<Path>, j: nat, t: Sweep, last: Option<Sweep>)
    requires j <= |paths|
  {
    || j == |paths|
    || t.stats.chunks >= w.maxChunks
    || Late(w.env.clock(t.looks))
    || (last.Some? && j > 0 && Halts(w, before, last.value.(looks := last.value.looks + 1), paths[j - 1]))
  }

  /** What it has by then: everything the visits did. If it ended between two visits it says what it ran out of. */
  predicate EndsWith(w: World, r: Sweep, t: Sweep, between: bool) {
    && r.table == t.table && r.ledger == t.ledger && r.rate == t.rate
    && r.stats == t.stats.(capped := t.stats.capped || between,
                           timedOut := t.stats.timedOut || (between && t.stats.chunks < w.maxChunks))
  }

  lemma VisitedFirst(w: World, before: Ledger, paths: seq<Path>, i: nat, j: nat, s: Sweep)
    requires i < j <= |paths|
    ensures VisitedTo(w, before, paths, i, j, s)
            == VisitedTo(w, before, paths, i + 1, j, Visit(w, before, s.(looks := s.looks + 1), paths[i]).0)
  {
  }

  lemma EndsAtOnce(w: World, before: Ledger, paths: seq<Path>, i: nat, s: Sweep)
    requires i <= |paths|
    requires i == |paths| || s.stats.chunks >= w.maxChunks || OutOfTime(w.env.clock(s.looks))
    ensures Ends(w, before, paths, i, s, None) && EndsWith(w, SweepFrom(w, before, paths, i, s), s, i < |paths|)
  {
  }

  lemma EndsWithVisit(w: World, before: Ledger, paths: seq<Path>, i: nat, s: Sweep, next: Sweep)
    requires i < |paths| && Visit(w, before, s.(looks := s.looks + 1), paths[i]) == (next, true)
    ensures Ends(w, before, paths, i + 1, next, Some(s))
  {
    VisitStopsIff(w, before, s.(looks := s.looks + 1), paths[i]);
  }

  /** In any world a sweep ends before its last path only at the cap, out of time, or after a visit that halts it. */
  lemma {:induction false} SweepEndsOnly(w: World, before: Ledger, paths: seq<Path>, i: nat, s: Sweep)
    returns (j: nat, last: Option<Sweep>)
    requires i <= |paths|
    ensures i <= j <= |paths| && (last.Some? ==> i < j && last.value == VisitedTo(w, before, paths, i, j - 1, s))
    ensures Ends(w, before, paths, j, VisitedTo(w, before, paths, i, j, s), last)
    ensures EndsWith(w, SweepFrom(w, before, paths, i, s), VisitedTo(w, before, paths, i, j, s),
                last.None? && j < |paths|)
    decreases |paths| - i
  {
    if i == |paths| || s.stats.chunks >= w.maxChunks || OutOfTime(w.env.clock(s.looks)) {
      EndsAtOnce(w, before, paths, i, s);
      j, last := i, None;
    } else {
      var visit := Visit(w, before, s.(looks := s.looks + 1), paths[i]);
      Unfold(w, before, paths, i, s, visit.0, visit.1);
      VisitedFirst(w, before, paths, i, i + 1, s);
      if visit.1 {
        EndsWithVisit(w, before, paths, i, s, visit.0);
        j, last := i + 1, Some(s);
      } else {
        j, last := SweepEndsOnly(w, before, paths, i + 1, visit.0);
        VisitedFirst(w, before, paths, i, if i < j then j else i + 1, s);
        if last.Some? { VisitedFirst(w, before, paths, i, j - 1, s); }
      }
    }
  }

  /** A visit marks the sweep short of room if its file was cut or ran out of time, and timed out if it ran out. */
  lemma VisitFlags(w: World, before: Ledger, s: Sweep, path: Path)
    ensures var next := Visit(w, before, s, path).0;
            if !Unchanged(w, before, path) && w.files(path).Text? then
              var chunks := w.files(path).chunks;
              var ranOut := EmbedRest(w, path, Budgeted(w, s, chunks), 0, Emptied(w, before, s, path)).1;
              && next.stats.timedOut == (s.stats.timedOut || ranOut)
              && next.stats.capped
                 == (s.stats.capped || ranOut || (chunks != [] && s.stats.chunks + |chunks| > w.maxChunks))
            else next.stats.timedOut == s.stats.timedOut && next.stats.capped == s.stats.capped
  {
  }

  /** The cursor stays on the last file that was recorded or found unchanged. */
  lemma VisitCursor(w: World, before: Ledger, s: Sweep, path: Path)
    ensures var next := Visit(w, before, s, path).0;
            && next.stats.cursor
               == (if Unchanged(w, before, path) || Recorded(s, next) then Some(path) else s.stats.cursor)
            && next.stats.skipped == s.stats.skipped + (if Unchanged(w, before, path) then 1 else 0)
            && next.stats.indexed == s.stats.indexed + (if Recorded(s, next) then 1 else 0)
  {
  }

  // ---------------------------------------------------------------- what an embedding call may take, and teaches

  lemma Quotient(budget: int, ms: nat, take: nat)
    requires ms > 0 && budget >= 0 && take <= budget / ms
    ensures take * ms <= budget
  {
    assert budget / ms * ms <= budget;
    assert take * ms <= budget / ms * ms;
  }

  /**
   Before any rate is known a call takes between one and four chunks; from then on no more than sixty-four, than are
   left, and than the time left pays for at the rate known.
   */
  lemma TakeAffordable(values: nat, budget: Option<int>, rate: Rate)
    requires values > 0 && !Late(budget)
    ensures var take := Take(values, budget, rate);
            if rate.measured then
              take <= values && take <= 64 && (budget.Some? ==> take * Max(1, rate.msPerChunk) <= budget.value)
              && (budget.None? && values >= 64 ==> take == 64)
            else 1 <= take <= 4 && take <= values
  {
    if rate.measured && budget.Some? { Quotient(budget.value, Max(1, rate.msPerChunk), Take(values, budget, rate)); }
  }

  /** A call that fails is never taken to have been cheaper than was known; one that comes back sets the rate. */
  lemma RateLearned(w: World, values: nat, budget: Option<int>, rate: Rate, looks: nat)
    ensures var (sizes, timedOut, learned) := EmbedBudgeted(w, values, budget, rate, looks);
            if values == 0 then sizes == [] && !timedOut && learned == rate
            else if Late(budget) || Take(values, budget, rate) == 0 then sizes == [] && timedOut && learned == rate
            else
              var take := Take(values, budget, rate);
              match w.env.embed(looks, take)
              case Vectors(back, elapsed) =>
                sizes == back && !timedOut && learned.measured && learned.msPerChunk >= 1
                && (learned.msPerChunk > 1 ==> 2 * take * learned.msPerChunk - take <= 2 * elapsed)
                && 2 * elapsed < 2 * take * learned.msPerChunk + take
              case Failed(elapsed) =>
                sizes == [] && timedOut && learned.measured && learned.msPerChunk >= rate.msPerChunk
                && (learned.msPerChunk > rate.msPerChunk ==> 2 * take * learned.msPerChunk - take <= 2 * elapsed)
                && 2 * elapsed < 2 * take * learned.msPerChunk + take
  {
    if values > 0 && !Late(budget) && Take(values, budget, rate) > 0 {
      var take := Take(values, budget, rate);
      var elapsed := w.env.embed(looks, take).elapsed;
      RoundedIsNearest(elapsed, take);
      var q := Rounded(elapsed, take);
      MoreTaken(take, q, EmbedBudgeted(w, values, budget, rate, looks).2.msPerChunk);
    }
  }

  /** What a call teaches is kept, whether it came back or not; a batch asks for nothing once time is out. */
  lemma BatchTeaches(w: World, path: Path, chunks: seq<string>, offset: nat, p: Progress)
    requires offset < |chunks|
    ensures var (sizes, next, ranOut) := OneBatch(w, path, chunks, offset, p);
            if Late(w.env.clock(p.looks)) then sizes == [] && ranOut && next.rate == p.rate && next.table == p.table
            else
              next.rate
              == EmbedBudgeted(w, |SliceAt(chunks, offset)|, w.env.clock(p.looks + 1), p.rate, p.looks + 2).2
  {
  }

  lemma RoundedIsNearest(elapsed: nat, take: nat)
    requires take > 0
    ensures 2 * take * Rounded(elapsed, take) - take <= 2 * elapsed < 2 * take * Rounded(elapsed, take) + take
  {
    var n, d := 2 * elapsed + take, 2 * take;
    assert n / d * d <= n < n / d * d + d;
  }

  lemma MoreTaken(take: nat, a: nat, b: nat)
    requires a <= b
    ensures 2 * take * a <= 2 * take * b
  {
  }

  /**
   A sweep starts from nothing done, at the rate the last coverage row gave, or at a guess it has still to measure.
   */
  lemma SweepStarts(table: Table, ledger: Ledger, learned: Option<nat>)
    ensures var s := Start(table, ledger, learned);
            && s.table == table && s.ledger == ledger && s.stats == Stats(0, 0, 0, false, false, 0, 0, None)
            && s.rate.measured == learned.Some? && s.rate.msPerChunk == (if learned.Some? then learned.value else 1000)
  {
  }

  /**
   A coverage row is partial if and only if the sweep was short of room or of time or fewer files are indexed than are
   tracked; it hands on the cursor, and the rate if anything was embedded, or else the one it was given.
   */
  lemma CoverageSays(before: Ledger, tracked: nat, stats: Stats, rate: Rate, learned: Option<nat>)
    requires |before| + stats.added >= stats.removed
    ensures var c := Covered(before, tracked, stats, rate, learned);
            && c.indexedFiles == |before| + stats.added - stats.removed && c.trackedFiles == tracked
            && (c.partial <==> stats.capped || stats.timedOut || c.indexedFiles < tracked)
            && c.chunks == stats.chunks && c.cursor == stats.cursor
            && c.msPerChunk == (if stats.chunks == 0 then learned else Some(rate.msPerChunk))
  {
  }

  // ---------------------------------------------------------------- when everything is indexed

  ghost predicate Untimed(env: Env) {
    forall looks: nat :: env.clock(looks).None?
  }

  /** Every call comes back with a vector for each chunk asked for. */
  ghost predicate AnswersInFull(env: Env) {
    forall looks: nat, take: nat ::
      && env.embed(looks, take).Vectors? && |env.embed(looks, take).sizes| == take
      && forall size <- env.embed(looks, take).sizes :: size > 0
  }

  lemma BatchComesBack(w: World, values: nat, rate: Rate, looks: nat)
    requires AnswersInFull(w.env) && values > 0
    ensures EmbedBudgeted(w, values, None, rate, looks).0 != []
  {
  }

  lemma {:induction false} NothingRunsOut(w: World, path: Path, chunks: seq<string>, offset: nat, p: Progress)
    requires Untimed(w.env) && AnswersInFull(w.env)
    ensures !EmbedRest(w, path, chunks, offset, p).1
    decreases |chunks| - offset
  {
    if offset < |chunks| {
      BatchComesBack(w, |SliceAt(chunks, offset)|, p.rate, p.looks + 2);
      var (sizes, next, ranOut) := OneBatch(w, path, chunks, offset, p);
      NothingRunsOut(w, path, chunks, offset + |sizes|, next);
    }
  }

  /** A changed text file with something in it. */
  predicate Wanted(w: World, before: Ledger, path: Path) {
    w.files(path).Text? && w.files(path).chunks != [] && !Unchanged(w, before, path)
  }

  /** Recorded under its present hash, with all its chunks in the table. */
  ghost predicate Indexed(w: World, s: Sweep, path: Path) {
    && w.files(path).Text? && HashNow(w, path).Some? && path in s.ledger
    && s.ledger[path] == Row(HashNow(w, path).value, |w.files(path).chunks|)
    && forall i: nat :: i < |w.files(path).chunks| ==>
                          Key(path, i) in s.table && s.table[Key(path, i)] == w.files(path).chunks[i]
  }

  /** How many chunks the paths from the `i`-th on want. */
  function Need(w: World, before: Ledger, paths: seq<Path>, i: nat): nat
    requires i <= |paths|
    decreases |paths| - i
  {
    if i == |paths| then 0
    else (if Wanted(w, before, paths[i]) then |w.files(paths[i]).chunks| else 0) + Need(w, before, paths, i + 1)
  }

  lemma {:induction false} NoNeed(w: World, before: Ledger, paths: seq<Path>, i: nat, k: nat)
    requires i <= k < |paths| && Wanted(w, before, paths[k])
    ensures Need(w, before, paths, i) > 0
    decreases |paths| - i
  {
    if i < k { NoNeed(w, before, paths, i + 1, k); }
  }

  /** What a visit needs of the ledger and table, as every sweep keeps them. */
  ghost predicate Ready(w: World, before: Ledger, s: Sweep, path: Path) {
    && Accounted(s.table, s.ledger) && s.stats.chunks <= w.maxChunks
    && (path in before ==> path in s.ledger && s.ledger[path] == before[path])
    && (path !in before ==> path !in s.ledger)
  }

  /** With time and room for it, a wanted file is indexed, and the sweep goes on. */
  lemma WantedIsIndexed(w: World, before: Ledger, s: Sweep, path: Path)
    requires Untimed(w.env) && AnswersInFull(w.env) && Ready(w, before, s, path) && Wanted(w, before, path)
    requires !s.stats.capped && s.stats.chunks + |w.files(path).chunks| <= w.maxChunks
    ensures var (next, stop) := Visit(w, before, s, path);
            && Indexed(w, next, path) && !stop && !next.stats.capped
            && next.stats.chunks == s.stats.chunks + |w.files(path).chunks|
  {
    var chunks := w.files(path).chunks;
    var start := Emptied(w, before, s, path);
    assert GoodEmbedder(w.env) && FullAnswers(w.env);
    assert chunks[..Min(w.maxChunks - s.stats.chunks, |chunks|)] == chunks;
    NothingRunsOut(w, path, chunks, 0, start);
    RanOutIsShort(w, path, chunks, 0, start, true);
    var p, ranOut := EmbeddedRows(w, before, s, path, chunks, start);
    ReembedUnfold(w, before, s, path, HashNow(w, path).value, chunks, chunks, start, p, ranOut);
  }

  /** Of any other file the visit leaves nothing more in the index, and the sweep goes on. */
  lemma OthersPass(w: World, before: Ledger, s: Sweep, path: Path)
    requires Untimed(w.env) && AnswersInFull(w.env) && !Wanted(w, before, path) && !s.stats.capped
    ensures var (next, stop) := Visit(w, before, s, path);
            !stop && !next.stats.capped && next.stats.chunks == s.stats.chunks
  {
  }

  lemma OtherPathsStay(w: World, before: Ledger, s: Sweep, path: Path, other: Path)
    requires GoodEmbedder(w.env) && Ready(w, before, s, path) && other != path && Indexed(w, s, other)
    ensures Indexed(w, Visit(w, before, s, path).0, other)
  {
    var m := VisitShape(w, before, s, path);
  }

  /** What a complete sweep keeps: room for all that is still wanted, and all wanted so far indexed. */
  ghost predicate OnCourse(w: World, table0: Table, before: Ledger, paths: seq<Path>, i: nat, s: Sweep)
    requires i <= |paths|
  {
    && Kept(w, table0, before, Elements(paths[..i]), s)
    && !s.stats.capped && s.stats.chunks + Need(w, before, paths, i) <= w.maxChunks
    && forall k :: 0 <= k < i && Wanted(w, before, paths[k]) ==> Indexed(w, s, paths[k])
  }

  lemma IndexedStay(w: World, table0: Table, before: Ledger, paths: seq<Path>, i: nat, s: Sweep)
    requires GoodEmbedder(w.env) && Distinct(paths) && i < |paths| && OnCourse(w, table0, before, paths, i, s)
    requires Ready(w, before, s, paths[i])
    ensures forall k :: 0 <= k < i && Wanted(w, before, paths[k]) ==>
                          Indexed(w, Visit(w, before, s.(looks := s.looks + 1), paths[i]).0, paths[k])
  {
    var looked := s.(looks := s.looks + 1);
    forall k | 0 <= k < i && Wanted(w, before, paths[k])
      ensures Indexed(w, Visit(w, before, looked, paths[i]).0, paths[k])
    {
      assert Indexed(w, looked, paths[k]);
      OtherPathsStay(w, before, looked, paths[i], paths[k]);
    }
  }

  lemma ReadyNext(w: World, table0: Table, before: Ledger, paths: seq<Path>, i: nat, s: Sweep)
    requires Distinct(paths) && i < |paths| && Kept(w, table0, before, Elements(paths[..i]), s)
    ensures Ready(w, before, s, paths[i])
  {
    NextPath(paths, i);
  }

  /** One visit of a complete sweep. */
  lemma CourseKept(w: World, table0: Table, before: Ledger, paths: seq<Path>, i: nat, s: Sweep)
    returns (next: Sweep)
    requires Untimed(w.env) && AnswersInFull(w.env) && Distinct(paths) && i < |paths|
    requires OnCourse(w, table0, before, paths, i, s)
    ensures Visit(w, before, s.(looks := s.looks + 1), paths[i]) == (next, false)
    ensures OnCourse(w, table0, before, paths, i + 1, next)
  {
    var path := paths[i];
    var looked := s.(looks := s.looks + 1);
    NextPath(paths, i);
    ReadyNext(w, table0, before, paths, i, s);
    IndexedStay(w, table0, before, paths, i, s);
    var stop;
    next, stop := OneVisit(w, table0, before, Elements(paths[..i]), s, path);
    if Wanted(w, before, path) {
      WantedIsIndexed(w, before, looked, path);
    } else {
      OthersPass(w, before, looked, path);
    }
  }

  lemma CourseStep(w: World, table0: Table, before: Ledger, paths: seq<Path>, i: nat, s: Sweep) returns (next: Sweep)
    requires Untimed(w.env) && AnswersInFull(w.env) && Distinct(paths) && i < |paths|
    requires OnCourse(w, table0, before, paths, i, s) && s.stats.chunks < w.maxChunks
    ensures SweepFrom(w, before, paths, i, s) == SweepFrom(w, before, paths, i + 1, next)
    ensures OnCourse(w, table0, before, paths, i + 1, next)
  {
    next := CourseKept(w, table0, before, paths, i, s);
    Unfold(w, before, paths, i, s, next, false);
  }

  lemma CourseEnds(w: World, table0: Table, before: Ledger, paths: seq<Path>, i: nat, s: Sweep, path: Path)
    requires i <= |paths| && OnCourse(w, table0, before, paths, i, s) && path in paths && Wanted(w, before, path)
    requires i == |paths| || s.stats.chunks >= w.maxChunks
    ensures Indexed(w, SweepFrom(w, before, paths, i, s), path)
  {
    var k :| 0 <= k < |paths| && paths[k] == path;
    if k >= i { NoNeed(w, before, paths, i, k); }
    assert Indexed(w, s, paths[k]);
  }

  lemma {:induction false} SweepComplete(w: World, table0: Table, before: Ledger, paths: seq<Path>, i: nat, s: Sweep,
      path: Path)
    requires Untimed(w.env) && AnswersInFull(w.env) && Distinct(paths) && i <= |paths|
    requires OnCourse(w, table0, before, paths, i, s) && path in paths && Wanted(w, before, path)
    ensures Indexed(w, SweepFrom(w, before, paths, i, s), path)
    decreases |paths| - i
  {
    if i == |paths| || s.stats.chunks >= w.maxChunks {
      CourseEnds(w, table0, before, paths, i, s, path);
    } else {
      var next := CourseStep(w, table0, before, paths, i, s);
      SweepComplete(w, table0, before, paths, i + 1, next, path);
    }
  }

  /**
   Without a deadline, with an embedder that answers in full, and with room under the cap for every changed file, a
   refresh misses nothing, whatever unreadable, unfit or unchanged files stand in the way: every tracked text file with
   something in it ends in the ledger under its present hash, and every changed one with all its chunks in the table.
   */
  lemma RefreshComplete(w: World, table: Table, ledger: Ledger, tracked: seq<Path>, paths: seq<Path>,
      learned: Option<nat>, path: Path)
    requires Untimed(w.env) && AnswersInFull(w.env) && Accounted(table, ledger)
    requires Distinct(paths) && Elements(paths) == Elements(tracked) && Need(w, ledger, paths, 0) <= w.maxChunks
    requires path in tracked && w.files(path).Text? && w.files(path).chunks != []
    ensures var after := Refreshed(w, table, ledger, tracked, paths, learned);
            && path in after.ledger && Some(after.ledger[path].hash) == HashNow(w, path)
            && (!Unchanged(w, ledger, path) ==> Indexed(w, after, path))
  {
    assert GoodEmbedder(w.env);
    RefreshSound(w, table, ledger, tracked, paths, learned);
    assert path in Elements(tracked);
    if !Unchanged(w, ledger, path) {
      var s := Start(table, ledger, learned);
      StartKept(w, table, ledger, learned);
      assert Elements(paths[..0]) == {};
      SweepComplete(w, table, ledger, paths, 0, s, path);
    }
  }
}
