/** What every refresh leaves behind, whatever the cap, the deadline or the embedder did. */
module CodeIndexTheorems {
  import opened Options
  import opened CodeIndexSpec
  import opened Sets
  import opened OrderingTheorems

  /** An embedding call returns at most one vector per chunk asked for, none of them empty. */
  ghost predicate GoodAnswer(a: Answer, take: nat) {
    a.Vectors? ==> |a.sizes| <= take && forall size <- a.sizes :: size > 0
  }

  ghost predicate GoodEmbedder(env: Env) {
    forall looks: nat, take: nat :: GoodAnswer(env.embed(looks, take), take)
  }

  /** No chunk row without a ledger row that accounts for it. */
  ghost predicate Accounted(table: Table, ledger: Ledger) {
    forall key <- table :: key.path in ledger && key.index < ledger[key.path].chunks
  }

  ghost predicate SameElsewhere(table: Table, base: Table, path: Path) {
    forall key: Key :: key.path != path ==> (key in table <==> key in base) && (key in base ==> table[key] == base[key])
  }

  /** The path's rows are exactly the first `n` chunks, in order; every other path's rows are those of `base`. */
  ghost predicate FileRows(table: Table, base: Table, path: Path, chunks: seq<string>, n: nat) {
    && n <= |chunks| && SameElsewhere(table, base, path)
    && (forall i: nat :: Key(path, i) in table <==> i < n)
    && (forall i: nat :: i < n ==> table[Key(path, i)] == chunks[i])
  }

  // ---------------------------------------------------------------- one file's embedding

  lemma TakeBound(values: nat, budget: Option<int>, rate: Rate)
    requires values > 0 && !OutOfTime(budget)
    ensures Take(values, budget, rate) <= values && Take(values, budget, rate) <= EMBED_BATCH_MAX
    ensures !rate.measured ==> 1 <= Take(values, budget, rate) <= EMBED_PROBE_CHUNKS
  {
  }

  /** A batch never asks for, nor returns, more than its slice. */
  lemma BatchFits(w: World, values: nat, budget: Option<int>, rate: Rate, looks: nat)
    requires GoodEmbedder(w.env)
    ensures var (sizes, timedOut, learned) := EmbedBudgeted(w, values, budget, rate, looks);
            |sizes| <= values && (forall size <- sizes :: size > 0) && (timedOut ==> sizes == [])
  {
    if values > 0 && !OutOfTime(budget) {
      TakeBound(values, budget, rate);
      var take := Take(values, budget, rate);
      assert GoodAnswer(w.env.embed(looks, take), take);
    }
  }

  lemma OneInserted(table: Table, base: Table, path: Path, chunks: seq<string>, n: nat)
    requires FileRows(table, base, path, chunks, n) && n < |chunks|
    ensures FileRows(table[Key(path, n) := chunks[n]], base, path, chunks, n + 1)
  {
  }

  lemma {:induction false} AllInserted(table: Table, base: Table, path: Path, chunks: seq<string>, slice: seq<string>,
      offset: nat, sizes: seq<nat>)
    requires FileRows(table, base, path, chunks, offset)
    requires |sizes| <= |slice| && offset + |slice| <= |chunks| && slice == chunks[offset..offset + |slice|]
    requires forall size <- sizes :: size > 0
    ensures FileRows(Inserted(table, path, slice, offset, sizes), base, path, chunks, offset + |sizes|)
    decreases |sizes|
  {
    if sizes != [] {
      var i := |sizes| - 1;
      assert sizes[i] in sizes && forall size <- sizes[..i] :: size in sizes;
      AllInserted(table, base, path, chunks, slice, offset, sizes[..i]);
      OneInserted(Inserted(table, path, slice, offset, sizes[..i]), base, path, chunks, offset + i);
    }
  }

  /** Every call that does not fail returns one vector for each chunk asked for. */
  ghost predicate FullAnswers(env: Env) {
    forall looks: nat, take: nat :: GoodAnswer(env.embed(looks, take), take)
      && (env.embed(looks, take).Vectors? ==> |env.embed(looks, take).sizes| == take)
  }

  lemma FullBatch(w: World, values: nat, budget: Option<int>, rate: Rate, looks: nat)
    requires FullAnswers(w.env) && values > 0
    ensures var (sizes, timedOut, learned) := EmbedBudgeted(w, values, budget, rate, looks); sizes == [] ==> timedOut
  {
  }

  lemma {:induction false} AllWritten(slice: nat, sizes: seq<nat>)
    requires |sizes| <= slice && forall size <- sizes :: size > 0
    ensures Written(slice, sizes) == |sizes|
    decreases |sizes|
  {
    if sizes != [] {
      var i := |sizes| - 1;
      assert sizes[i] in sizes && forall size <- sizes[..i] :: size in sizes;
      AllWritten(slice, sizes[..i]);
    }
  }

  lemma BatchAnswer(w: World, values: nat, budget: Option<int>, rate: Rate, looks: nat, full: bool)
    requires GoodEmbedder(w.env) && (full ==> FullAnswers(w.env)) && values > 0
    ensures var (sizes, timedOut, learned) := EmbedBudgeted(w, values, budget, rate, looks);
            |sizes| <= values && (forall size <- sizes :: size > 0) && Written(values, sizes) == |sizes|
            && (timedOut ==> sizes == []) && (full && sizes == [] ==> timedOut)
  {
    BatchFits(w, values, budget, rate, looks);
    if full { FullBatch(w, values, budget, rate, looks); }
    AllWritten(values, EmbedBudgeted(w, values, budget, rate, looks).0);
  }

  /** What a batch of a good embedder leaves. */
  lemma Batch(w: World, path: Path, chunks: seq<string>, offset: nat, p: Progress, full: bool)
    requires GoodEmbedder(w.env) && p.written == offset < |chunks| && (full ==> FullAnswers(w.env))
    ensures var (sizes, next, ranOut) := OneBatch(w, path, chunks, offset, p);
            && |sizes| <= |SliceAt(chunks, offset)| && (forall size <- sizes :: size > 0)
               && next.written == offset + |sizes|
            && (ranOut ==> sizes == []) && (full && sizes == [] ==> ranOut)
            && next.table == (if sizes == [] then p.table
               else Inserted(p.table, path, SliceAt(chunks, offset), offset, sizes))
  {
    if !OutOfTime(w.env.clock(p.looks)) {
      BatchAnswer(w, |SliceAt(chunks, offset)|, w.env.clock(p.looks + 1), p.rate, p.looks + 2, full);
    }
  }

  ghost predicate Rows(r: (Progress, bool), base: Table, path: Path, chunks: seq<string>) {
    FileRows(r.0.table, base, path, chunks, r.0.written)
  }

  lemma BatchRows(base: Table, path: Path, chunks: seq<string>, offset: nat, p: Progress, sizes: seq<nat>,
      next: Progress)
    requires offset < |chunks| && FileRows(p.table, base, path, chunks, offset)
    requires |sizes| <= |SliceAt(chunks, offset)| && (forall size <- sizes :: size > 0)
    requires next.table == if sizes == [] then p.table
             else Inserted(p.table, path, SliceAt(chunks, offset), offset, sizes)
    ensures FileRows(next.table, base, path, chunks, offset + |sizes|)
  {
    if sizes != [] { AllInserted(p.table, base, path, chunks, SliceAt(chunks, offset), offset, sizes); }
  }

  /** A batch moves the file on by as many rows as vectors came back. */
  lemma OneMoreBatch(w: World, base: Table, path: Path, chunks: seq<string>, offset: nat, p: Progress)
    requires GoodEmbedder(w.env) && p.written == offset < |chunks| && FileRows(p.table, base, path, chunks, offset)
    ensures var (sizes, next, ranOut) := OneBatch(w, path, chunks, offset, p);
            next.written == offset + |sizes| <= |chunks| && FileRows(next.table, base, path, chunks, next.written)
  {
    Batch(w, path, chunks, offset, p, false);
    var (sizes, next, ranOut) := OneBatch(w, path, chunks, offset, p);
    BatchRows(base, path, chunks, offset, p, sizes, next);
  }

  /** The rest of the file, from there, comes to this. */
  predicate Leads(w: World, path: Path, chunks: seq<string>, offset: nat, p: Progress, r: (Progress, bool)) {
    r == EmbedRest(w, path, chunks, offset, p)
  }

  lemma LeadsOn(w: World, path: Path, chunks: seq<string>, offset: nat, p: Progress, r: (Progress, bool))
    requires offset < |chunks| && Leads(w, path, chunks, offset, p, r)
    ensures var (sizes, next, ranOut) := OneBatch(w, path, chunks, offset, p);
            if sizes == [] then r == (next, ranOut) else Leads(w, path, chunks, offset + |sizes|, next, r)
  {
  }

  /** Every batch that starts from a table with the property leaves one with it, as many rows on. */
  ghost predicate KeptByBatches(inv: (Table, nat) -> bool, w: World, path: Path, chunks: seq<string>) {
    forall o: nat, q: Progress {:trigger OneBatch(w, path, chunks, o, q)} ::
      o < |chunks| && q.written == o && inv(q.table, o) ==>
        var (sizes, next, ranOut) := OneBatch(w, path, chunks, o, q);
        next.written == o + |sizes| <= |chunks| && inv(next.table, next.written)
  }

  lemma {:induction false} KeptByRest(
      inv: (Table, nat) -> bool, w: World, path: Path, chunks: seq<string>, offset: nat, p: Progress,
      r: (Progress, bool))
    requires KeptByBatches(inv, w, path, chunks) && p.written == offset && inv(p.table, offset)
    requires Leads(w, path, chunks, offset, p, r)
    ensures inv(r.0.table, r.0.written)
    decreases |chunks| - offset
  {
    if offset < |chunks| {
      LeadsOn(w, path, chunks, offset, p, r);
      var (sizes, next, ranOut) := OneBatch(w, path, chunks, offset, p);
      if sizes != [] { KeptByRest(inv, w, path, chunks, offset + |sizes|, next, r); }
    }
  }

  /** Embedding a file batch by batch leaves exactly its first chunks, in order, and no other file's rows changed. */
  lemma EmbedsInOrder(w: World, base: Table, path: Path, chunks: seq<string>, offset: nat, p: Progress)
    requires GoodEmbedder(w.env) && p.written == offset && FileRows(p.table, base, path, chunks, offset)
    ensures Rows(EmbedRest(w, path, chunks, offset, p), base, path, chunks)
  {
    var inv := (table: Table, n: nat) => FileRows(table, base, path, chunks, n);
    forall o: nat, q: Progress | o < |chunks| && q.written == o && inv(q.table, o)
      ensures var (sizes, next, ranOut) := OneBatch(w, path, chunks, o, q);
              next.written == o + |sizes| <= |chunks| && inv(next.table, next.written)
    {
      OneMoreBatch(w, base, path, chunks, o, q);
    }
    KeptByRest(inv, w, path, chunks, offset, p, EmbedRest(w, path, chunks, offset, p));
  }

  // ---------------------------------------------------------------- one file's visit

  /**
   A visit either leaves rows and ledger alone, or leaves the file with exactly `m` rows and, if any, a ledger row
   saying so.
   */
  ghost predicate Visited(w: World, before: Ledger, s: Sweep, next: Sweep, path: Path, m: nat) {
    && w.files(path).Text?
    && FileRows(next.table, s.table, path, w.files(path).chunks, m)
    && HashNow(w, path).Some?
    && next.ledger == (if m > 0 then s.ledger[path := Row(HashNow(w, path).value, m)] else s.ledger)
    && next.stats.chunks == s.stats.chunks + m <= w.maxChunks
    && next.stats.added == s.stats.added + (if m > 0 && path !in before then 1 else 0)
    && next.stats.removed == s.stats.removed
  }

  predicate LeftAlone(s: Sweep, next: Sweep) {
    next.table == s.table && next.ledger == s.ledger && next.stats.chunks == s.stats.chunks
    && next.stats.added == s.stats.added && next.stats.removed == s.stats.removed
  }

  lemma CutRows(table: Table, base: Table, path: Path, chunks: seq<string>, budgeted: nat, n: nat)
    requires budgeted <= |chunks| && FileRows(table, base, path, chunks[..budgeted], n)
    ensures FileRows(table, base, path, chunks, n)
  {
  }

  lemma Dropped(table: Table, base: Table, path: Path, chunks: seq<string>, n: nat)
    requires FileRows(table, base, path, chunks, n)
    ensures FileRows(DeleteRows(table, path, n), base, path, chunks, 0)
  {
  }

  lemma SettledShape(w: World, before: Ledger, s: Sweep, path: Path, budgeted: nat, cut: bool, p: Progress,
      ranOut: bool)
    returns (m: nat)
    requires w.files(path).Text? && HashNow(w, path).Some? && s.stats.chunks <= w.maxChunks
    requires FileRows(p.table, s.table, path, w.files(path).chunks, p.written)
    requires p.written <= budgeted <= w.maxChunks - s.stats.chunks
    ensures Visited(w, before, s,
            Settled(w, before, s.ledger, s.stats, path, HashNow(w, path).value, budgeted, cut, p, ranOut).0, path, m)
  {
    var whole := p.written > 0 && (p.written == budgeted || !ranOut);
    m := if whole then p.written else 0;
    Dropped(p.table, s.table, path, w.files(path).chunks, p.written);
  }

  /** The rows of a file accounted for by the old ledger are all deleted before it is embedded again. */
  lemma Cleared(s: Sweep, before: Ledger, path: Path, chunks: seq<string>)
    requires Accounted(s.table, s.ledger)
    requires path in before ==> path in s.ledger && s.ledger[path] == before[path]
    requires path !in before ==> path !in s.ledger
    ensures FileRows(if path in before then DeleteRows(s.table, path, before[path].chunks)
            else s.table, s.table, path, chunks, 0)
  {
  }

  lemma ReembedUnfold(w: World, before: Ledger, s: Sweep, path: Path, hash: Hash, chunks: seq<string>,
      budgeted: seq<string>,
                      start: Progress, p: Progress, ranOut: bool)
    requires budgeted == chunks[..Min(if w.maxChunks >= s.stats.chunks then w.maxChunks - s.stats.chunks
             else 0, |chunks|)]
    requires start == Progress(if path in before then DeleteRows(s.table, path, before[path].chunks)
             else s.table, 0, s.rate, s.looks)
    requires EmbedRest(w, path, budgeted, 0, start) == (p, ranOut)
    ensures Reembedded(w, before, s, path, hash, chunks)
            == Settled(w, before, s.ledger, s.stats, path, hash, |budgeted|, |budgeted| < |chunks|, p, ranOut)
  {
  }

  lemma EmbeddedRows(w: World, before: Ledger, s: Sweep, path: Path, budgeted: seq<string>, start: Progress)
    returns (p: Progress, ranOut: bool)
    requires GoodEmbedder(w.env) && Accounted(s.table, s.ledger)
    requires path in before ==> path in s.ledger && s.ledger[path] == before[path]
    requires path !in before ==> path !in s.ledger
    requires start == Progress(if path in before then DeleteRows(s.table, path, before[path].chunks)
             else s.table, 0, s.rate, s.looks)
    ensures EmbedRest(w, path, budgeted, 0, start) == (p, ranOut)
            && FileRows(p.table, s.table, path, budgeted, p.written)
  {
    Cleared(s, before, path, budgeted);
    EmbedsInOrder(w, s.table, path, budgeted, 0, start);
    var r := EmbedRest(w, path, budgeted, 0, start);
    p, ranOut := r.0, r.1;
  }

  lemma ReembedShape(w: World, before: Ledger, s: Sweep, path: Path) returns (m: nat)
    requires GoodEmbedder(w.env) && Accounted(s.table, s.ledger) && s.stats.chunks <= w.maxChunks
    requires path in before ==> path in s.ledger && s.ledger[path] == before[path]
    requires path !in before ==> path !in s.ledger
    requires w.files(path).Text?
    ensures Visited(w, before, s, Reembedded(w, before, s, path, HashNow(w, path).value, w.files(path).chunks).0, path,
            m)
  {
    var chunks := w.files(path).chunks;
    var budgeted := chunks[..Min(w.maxChunks - s.stats.chunks, |chunks|)];
    var start := Progress(if path in before then DeleteRows(s.table, path, before[path].chunks)
        else s.table, 0, s.rate, s.looks);
    var p, ranOut := EmbeddedRows(w, before, s, path, budgeted, start);
    ReembedUnfold(w, before, s, path, HashNow(w, path).value, chunks, budgeted, start, p, ranOut);
    CutRows(p.table, s.table, path, chunks, |budgeted|, p.written);
    m := SettledShape(w, before, s, path, |budgeted|, |budgeted| < |chunks|, p, ranOut);
  }

  lemma VisitShape(w: World, before: Ledger, s: Sweep, path: Path) returns (m: nat)
    requires GoodEmbedder(w.env) && Accounted(s.table, s.ledger) && s.stats.chunks <= w.maxChunks
    requires path in before ==> path in s.ledger && s.ledger[path] == before[path]
    requires path !in before ==> path !in s.ledger
    ensures LeftAlone(s, Visit(w, before, s, path).0)
            || (!Unchanged(w, before, path) && Visited(w, before, s, Visit(w, before, s, path).0, path, m))
  {
    m := 0;
    if !Unchanged(w, before, path) && w.files(path).Text? { m := ReembedShape(w, before, s, path); }
  }

  // ---------------------------------------------------------------- the sweep

  ghost predicate SameRows(table: Table, base: Table, path: Path) {
    forall i: nat :: (Key(path, i) in table <==> Key(path, i) in base)
                     && (Key(path, i) in base ==> table[Key(path, i)] == base[Key(path, i)])
  }

  /** A ledger row that is not the old one describes the file: its hash, and its rows as the first chunks. */
  ghost predicate Faithful(w: World, before: Ledger, table: Table, ledger: Ledger, path: Path) {
    path in ledger && (path in before ==> ledger[path] != before[path]) ==>
      && w.files(path).Text? && HashNow(w, path) == Some(ledger[path].hash)
      && 0 < ledger[path].chunks <= |w.files(path).chunks|
      && forall i: nat :: i < ledger[path].chunks ==>
         Key(path, i) in table && table[Key(path, i)] == w.files(path).chunks[i]
  }

  /** The sweep so far, relative to the table and ledger it started from. */
  ghost predicate Kept(w: World, table0: Table, before: Ledger, done: set<Path>, s: Sweep) {
    && Accounted(s.table, s.ledger)
    && before.Keys <= s.ledger.Keys <= before.Keys + done
    && (forall path <- before :: path !in done ==> s.ledger[path] == before[path])
    && (forall path <- before :: Unchanged(w, before, path) ==>
       s.ledger[path] == before[path] && SameRows(s.table, table0, path))
    && |s.ledger.Keys| == |before.Keys| + s.stats.added
    && s.stats.removed == 0 && s.stats.chunks <= w.maxChunks
    && (forall path :: Faithful(w, before, s.table, s.ledger, path))
  }

  lemma VisitAccounted(w: World, before: Ledger, s: Sweep, next: Sweep, path: Path, m: nat)
    requires Accounted(s.table, s.ledger) && Visited(w, before, s, next, path, m)
    ensures Accounted(next.table, next.ledger)
  {
  }

  lemma VisitFaithful(w: World, before: Ledger, s: Sweep, next: Sweep, path: Path, m: nat)
    requires Visited(w, before, s, next, path, m)
             && (path in s.ledger ==> path in before && s.ledger[path] == before[path])
    requires forall p :: Faithful(w, before, s.table, s.ledger, p)
    ensures forall p :: Faithful(w, before, next.table, next.ledger, p)
  {
    forall p ensures Faithful(w, before, next.table, next.ledger, p) {
      assert Faithful(w, before, s.table, s.ledger, p);
    }
  }

  lemma VisitCount(before: Ledger, s: Sweep, next: Sweep, path: Path, m: nat, hash: Hash)
    requires next.ledger == (if m > 0 then s.ledger[path := Row(hash, m)] else s.ledger)
    requires path in before <==> path in s.ledger
    ensures |next.ledger.Keys| == |s.ledger.Keys| + (if m > 0 && path !in before then 1 else 0)
  {
    if m > 0 {
      assert next.ledger.Keys == s.ledger.Keys + {path};
    }
  }

  lemma VisitKeeps(w: World, table0: Table, before: Ledger, done: set<Path>, s: Sweep, next: Sweep, path: Path, m: nat)
    requires Kept(w, table0, before, done, s) && path !in done && !Unchanged(w, before, path)
    requires Visited(w, before, s, next, path, m)
    ensures Kept(w, table0, before, done + {path}, next)
  {
    VisitAccounted(w, before, s, next, path, m);
    VisitFaithful(w, before, s, next, path, m);
    VisitCount(before, s, next, path, m, HashNow(w, path).value);
    forall p | p in before && Unchanged(w, before, p)
      ensures next.ledger[p] == before[p] && SameRows(next.table, table0, p) {
      assert p != path;
      assert SameRows(s.table, table0, p);
    }
  }

  /** Rows, ledger and counts untouched, more paths allowed for. */
  lemma Widened(w: World, table0: Table, before: Ledger, done: set<Path>, more: set<Path>, s: Sweep, next: Sweep)
    requires Kept(w, table0, before, done, s) && LeftAlone(s, next) && done <= more
    ensures Kept(w, table0, before, more, next)
  {
  }

  lemma OneVisit(w: World, table0: Table, before: Ledger, done: set<Path>, s: Sweep, path: Path)
    returns (next: Sweep, stop: bool)
    requires GoodEmbedder(w.env) && Kept(w, table0, before, done, s) && path !in done
    ensures Visit(w, before, s.(looks := s.looks + 1), path) == (next, stop)
            && Kept(w, table0, before, done + {path}, next)
  {
    var looked := s.(looks := s.looks + 1);
    Widened(w, table0, before, done, done, s, looked);
    var m := VisitShape(w, before, looked, path);
    var visit := Visit(w, before, looked, path);
    next, stop := visit.0, visit.1;
    if LeftAlone(looked, next) { Widened(w, table0, before, done, done + {path}, looked, next); }
    else { VisitKeeps(w, table0, before, done, looked, next, path, m); }
  }

  function Elements(paths: seq<Path>): set<Path> {
    set path | path in paths
  }

  lemma NextPath(paths: seq<Path>, i: nat)
    requires Distinct(paths) && i < |paths|
    ensures paths[i] !in Elements(paths[..i]) && Elements(paths[..i + 1]) == Elements(paths[..i]) + {paths[i]}
    ensures Elements(paths[..i + 1]) <= Elements(paths)
  {
  }

  lemma StopKeeps(w: World, table0: Table, before: Ledger, paths: seq<Path>, i: nat, s: Sweep)
    requires i < |paths| && Kept(w, table0, before, Elements(paths[..i]), s)
    requires s.stats.chunks >= w.maxChunks || OutOfTime(w.env.clock(s.looks))
    ensures Kept(w, table0, before, Elements(paths), SweepFrom(w, before, paths, i, s))
  {
    Widened(w, table0, before, Elements(paths[..i]), Elements(paths), s, SweepFrom(w, before, paths, i, s));
  }

  /** The sweep from `i` is one visit and then the sweep from the next path, unless it stops. */
  lemma Unfold(w: World, before: Ledger, paths: seq<Path>, i: nat, s: Sweep, next: Sweep, stop: bool)
    requires i < |paths| && s.stats.chunks < w.maxChunks && !OutOfTime(w.env.clock(s.looks))
    requires Visit(w, before, s.(looks := s.looks + 1), paths[i]) == (next, stop)
    ensures SweepFrom(w, before, paths, i, s) == if stop then next else SweepFrom(w, before, paths, i + 1, next)
  {
  }

  lemma SweepStep(w: World, table0: Table, before: Ledger, paths: seq<Path>, i: nat, done: set<Path>, s: Sweep)
    returns (next: Sweep, stop: bool)
    requires GoodEmbedder(w.env) && i < |paths| && paths[i] !in done && Kept(w, table0, before, done, s)
    requires s.stats.chunks < w.maxChunks && !OutOfTime(w.env.clock(s.looks))
    ensures Kept(w, table0, before, done + {paths[i]}, next)
    ensures SweepFrom(w, before, paths, i, s) == if stop then next else SweepFrom(w, before, paths, i + 1, next)
  {
    next, stop := OneVisit(w, table0, before, done, s, paths[i]);
    Unfold(w, before, paths, i, s, next, stop);
  }

  lemma {:induction false} SweepKeeps(w: World, table0: Table, before: Ledger, paths: seq<Path>, i: nat,
      done: set<Path>, s: Sweep)
    requires GoodEmbedder(w.env) && Distinct(paths) && i <= |paths| && done == Elements(paths[..i])
             && Kept(w, table0, before, done, s)
    ensures Kept(w, table0, before, Elements(paths), SweepFrom(w, before, paths, i, s))
    decreases |paths| - i
  {
    if i == |paths| {
      assert paths[..i] == paths;
    } else if s.stats.chunks >= w.maxChunks || OutOfTime(w.env.clock(s.looks)) {
      StopKeeps(w, table0, before, paths, i, s);
    } else {
      NextPath(paths, i);
      var next, stop := SweepStep(w, table0, before, paths, i, done, s);
      if stop {
        Widened(w, table0, before, done + {paths[i]}, Elements(paths), next, next);
      } else {
        SweepKeeps(w, table0, before, paths, i + 1, done + {paths[i]}, next);
      }
    }
  }

  // ---------------------------------------------------------------- the whole refresh

  /** What the index promises after a refresh. */
  ghost predicate Sound(w: World, table0: Table, before: Ledger, tracked: set<Path>, after: Sweep) {
    && Accounted(after.table, after.ledger)
    && after.ledger.Keys <= tracked
    && (forall path <- before :: path in tracked && Unchanged(w, before, path) ==>
          path in after.ledger && after.ledger[path] == before[path] && SameRows(after.table, table0, path))
    && (forall path :: Faithful(w, before, after.table, after.ledger, path))
    && after.stats.chunks <= w.maxChunks
    && |after.ledger.Keys| == |before.Keys| + after.stats.added - after.stats.removed
  }

  lemma PurgeCount(ledger: Ledger, gone: set<Path>)
    requires gone <= ledger.Keys
    ensures |(ledger - gone).Keys| == |ledger.Keys| - |gone|
  {
    assert (ledger - gone).Keys == ledger.Keys - gone;
  }

  lemma PurgeRows(table: Table, before: Ledger, ledger: Ledger, gone: set<Path>, s: Sweep)
    requires gone <= before.Keys && s.table == table && s.ledger == ledger && Accounted(table, ledger)
    requires forall path <- gone :: path in ledger && ledger[path] == before[path]
    ensures Accounted(Purged(before, gone, s).table, ledger - gone)
    ensures forall path :: path !in gone ==> SameRows(Purged(before, gone, s).table, table, path)
  {
  }

  lemma PurgeSound(w: World, table0: Table, before: Ledger, tracked: seq<Path>, s: Sweep)
    requires Kept(w, table0, before, Elements(tracked), s)
    ensures Sound(w, table0, before, Elements(tracked), Purged(before, Gone(before, tracked), s))
  {
    var gone := Gone(before, tracked);
    PurgeCount(s.ledger, gone);
    PurgeRows(s.table, before, s.ledger, gone, s);
    var after := Purged(before, gone, s);
    forall path ensures Faithful(w, before, after.table, after.ledger, path) {
      assert Faithful(w, before, s.table, s.ledger, path);
      assert path !in gone ==> SameRows(after.table, s.table, path);
    }
  }

  lemma StartKept(w: World, table: Table, ledger: Ledger, learned: Option<nat>)
    requires Accounted(table, ledger)
    ensures Kept(w, table, ledger, {}, Start(table, ledger, learned))
  {
  }

  /**
   Whatever the cap, the deadline and the embedder did: every chunk row is accounted for, every ledger path is tracked,
   every unchanged tracked file keeps its row and chunks even if the sweep stopped before it, every new ledger row
   describes the file, and at most the cap was written.
   */
  lemma RefreshSound(w: World, table: Table, ledger: Ledger, tracked: seq<Path>, paths: seq<Path>, learned: Option<nat>)
    requires GoodEmbedder(w.env) && Accounted(table, ledger) && Distinct(paths) && Elements(paths) == Elements(tracked)
    ensures Sound(w, table, ledger, Elements(tracked), Refreshed(w, table, ledger, tracked, paths, learned))
  {
    var s := Start(table, ledger, learned);
    StartKept(w, table, ledger, learned);
    assert Elements(paths[..0]) == {};
    SweepKeeps(w, table, ledger, paths, 0, {}, s);
    PurgeSound(w, table, ledger, tracked, SweepFrom(w, ledger, paths, 0, s));
  }

  lemma {:induction false} ElementCount(paths: seq<Path>)
    requires Distinct(paths)
    ensures |Elements(paths)| == |paths|
  {
    if paths == [] {
      assert Elements(paths) == {};
    } else {
      var n := |paths| - 1;
      ElementCount(paths[..n]);
      assert Elements(paths) == Elements(paths[..n]) + {paths[n]};
    }
  }

  /** The coverage row says how many files the ledger really holds, and never more than are tracked. */
  lemma CoverageIsTrue(w: World, table: Table, ledger: Ledger, tracked: seq<Path>, paths: seq<Path>,
      learned: Option<nat>)
    requires GoodEmbedder(w.env) && Accounted(table, ledger)
    requires Distinct(paths) && Distinct(tracked) && Elements(paths) == Elements(tracked)
    ensures var after := Refreshed(w, table, ledger, tracked, paths, learned);
            var coverage := Covered(ledger, |tracked|, after.stats, after.rate, learned);
            && coverage.indexedFiles == |after.ledger| <= coverage.trackedFiles
            && (!coverage.partial ==> after.ledger.Keys == Elements(tracked))
  {
    RefreshSound(w, table, ledger, tracked, paths, learned);
    var after := Refreshed(w, table, ledger, tracked, paths, learned);
    ElementCount(tracked);
    SubsetSize(after.ledger.Keys, Elements(tracked));
    if |after.ledger.Keys| == |Elements(tracked)| { SameSize(after.ledger.Keys, Elements(tracked)); }
  }

  // ---------------------------------------------------------------- a file cut by the cap

  predicate ShortIff(r: (Progress, bool), all: nat, full: bool) {
    r.0.written <= all && (r.1 ==> r.0.written < all) && (full && !r.1 ==> r.0.written == all)
  }

  /** Running out leaves a file short; an embedder that answers in full leaves it short in no other way. */
  lemma {:induction false} RanOutIsShort(w: World, path: Path, chunks: seq<string>, offset: nat, p: Progress,
      full: bool)
    requires GoodEmbedder(w.env) && p.written == offset <= |chunks| && (full ==> FullAnswers(w.env))
    ensures ShortIff(EmbedRest(w, path, chunks, offset, p), |chunks|, full)
    decreases |chunks| - offset
  {
    if offset < |chunks| {
      Batch(w, path, chunks, offset, p, full);
      var (sizes, next, ranOut) := OneBatch(w, path, chunks, offset, p);
      if sizes != [] { RanOutIsShort(w, path, chunks, offset + |sizes|, next, full); }
    }
  }

  /**
   A file the sweep records is recorded whole exactly when it fits what the cap has left; otherwise its first chunks
   stand under the hash of the whole file, so every later refresh of the same content skips it as unchanged.
   */
  lemma RecordedWholeIff(w: World, before: Ledger, s: Sweep, path: Path)
    requires FullAnswers(w.env) && Accounted(s.table, s.ledger) && s.stats.chunks <= w.maxChunks
    requires path in before ==> path in s.ledger && s.ledger[path] == before[path]
    requires path !in before ==> path !in s.ledger
    requires w.files(path).Text? && !Unchanged(w, before, path)
             && Visit(w, before, s, path).0.stats.indexed > s.stats.indexed
    ensures var next := Visit(w, before, s, path).0;
            && path in next.ledger && Unchanged(w, next.ledger, path)
            && (next.ledger[path].chunks == |w.files(path).chunks|
               <==> |w.files(path).chunks| <= w.maxChunks - s.stats.chunks)
  {
    var chunks := w.files(path).chunks;
    var budgeted := chunks[..Min(w.maxChunks - s.stats.chunks, |chunks|)];
    var start := Progress(if path in before then DeleteRows(s.table, path, before[path].chunks)
        else s.table, 0, s.rate, s.looks);
    assert GoodEmbedder(w.env);
    var p, ranOut := EmbeddedRows(w, before, s, path, budgeted, start);
    RanOutIsShort(w, path, budgeted, 0, start, true);
    var hash := HashNow(w, path).value;
    ReembedUnfold(w, before, s, path, hash, chunks, budgeted, start, p, ranOut);
    WholeIff(w, before, s, path, hash, |budgeted|, |budgeted| < |chunks|, p, ranOut);
  }

  lemma WholeIff(w: World, before: Ledger, s: Sweep, path: Path, hash: Hash, budgeted: nat, cut: bool, p: Progress,
      ranOut: bool)
    requires ShortIff((p, ranOut), budgeted, true)
    requires Settled(w, before, s.ledger, s.stats, path, hash, budgeted, cut, p,
             ranOut).0.stats.indexed > s.stats.indexed
    ensures var next := Settled(w, before, s.ledger, s.stats, path, hash, budgeted, cut, p, ranOut).0;
            next.ledger == s.ledger[path := Row(hash, budgeted)]
  {
  }

  // ---------------------------------------------------------------- after a file that did not fit

  lemma SettledStops(w: World, before: Ledger, s: Sweep, path: Path, hash: Hash, budgeted: nat, cut: bool, p: Progress,
      ranOut: bool)
    requires ShortIff((p, ranOut), budgeted, false) && s.stats.capped
    ensures var (next, stop) := Settled(w, before, s.ledger, s.stats, path, hash, budgeted, cut, p, ranOut);
            next.stats.capped && next.stats.indexed <= s.stats.indexed + 1
                && (next.stats.indexed > s.stats.indexed ==> stop)
  {
  }

  lemma ReembedStops(w: World, before: Ledger, s: Sweep, path: Path, hash: Hash, chunks: seq<string>)
    requires GoodEmbedder(w.env) && s.stats.capped
    ensures var (next, stop) := Reembedded(w, before, s, path, hash, chunks);
            next.stats.capped && next.stats.indexed <= s.stats.indexed + 1
                && (next.stats.indexed > s.stats.indexed ==> stop)
  {
    var room := if w.maxChunks >= s.stats.chunks then w.maxChunks - s.stats.chunks else 0;
    var budgeted := chunks[..Min(room, |chunks|)];
    var start := Progress(if path in before then DeleteRows(s.table, path, before[path].chunks)
        else s.table, 0, s.rate, s.looks);
    RanOutIsShort(w, path, budgeted, 0, start, false);
    var r := EmbedRest(w, path, budgeted, 0, start);
    ReembedUnfold(w, before, s, path, hash, chunks, budgeted, start, r.0, r.1);
    SettledStops(w, before, s, path, hash, |budgeted|, |budgeted| < |chunks|, r.0, r.1);
  }

  lemma IndexingStops(w: World, before: Ledger, s: Sweep, path: Path)
    requires GoodEmbedder(w.env) && s.stats.capped
    ensures var (next, stop) := Visit(w, before, s, path);
            next.stats.capped && next.stats.indexed <= s.stats.indexed + 1
                && (next.stats.indexed > s.stats.indexed ==> stop)
  {
    if !Unchanged(w, before, path) && w.files(path).Text? {
      ReembedStops(w, before, s, path, if path in w.pre then w.pre[path] else w.files(path).hash, w.files(path).chunks);
    }
  }

  /** Once any file has run out of time, the sweep records at most one more file before it ends. */
  lemma {:induction false} AtMostOneMore(w: World, table0: Table, before: Ledger, paths: seq<Path>, i: nat,
      done: set<Path>, s: Sweep)
    requires GoodEmbedder(w.env) && Distinct(paths) && i <= |paths| && done == Elements(paths[..i])
    requires Kept(w, table0, before, done, s) && s.stats.capped
    ensures SweepFrom(w, before, paths, i, s).stats.indexed <= s.stats.indexed + 1
    decreases |paths| - i
  {
    if i < |paths| && s.stats.chunks < w.maxChunks && !OutOfTime(w.env.clock(s.looks)) {
      NextPath(paths, i);
      var next, stop := OneVisit(w, table0, before, done, s, paths[i]);
      VisitAfterCap(w, table0, before, done, s, paths[i], next, stop);
      Unfold(w, before, paths, i, s, next, stop);
      if !stop { AtMostOneMore(w, table0, before, paths, i + 1, done + {paths[i]}, next); }
    }
  }

  lemma VisitAfterCap(w: World, table0: Table, before: Ledger, done: set<Path>, s: Sweep, path: Path, next: Sweep,
      stop: bool)
    requires GoodEmbedder(w.env) && Kept(w, table0, before, done, s) && path !in done && s.stats.capped
    requires Visit(w, before, s.(looks := s.looks + 1), path) == (next, stop)
    ensures next.stats.capped && next.stats.indexed <= s.stats.indexed + 1
            && (next.stats.indexed > s.stats.indexed ==> stop)
  {
    IndexingStops(w, before, s.(looks := s.looks + 1), path);
  }

  // ---------------------------------------------------------------- why the conditions are needed

  function TwoChunks(path: Path): File { Text("h", ["a", "b"]) }
  function NoDeadline(look: nat): Option<int> { None }
  function FirstEmpty(look: nat, take: nat): Answer { Vectors([0, 5], 1) }
  function BothFull(look: nat, take: nat): Answer { Vectors([5, 5], 1) }

  lemma EmbedOnce(w: World, path: Path, chunks: seq<string>, p: Progress, sizes: seq<nat>)
    requires chunks == ["a", "b"] && w.env.clock == NoDeadline
    requires (forall l: nat, k: nat :: w.env.embed(l, k) == Vectors(sizes, 1)) && |sizes| == 2
    ensures EmbedRest(w, path, chunks, 0, p)
            == (Progress(Inserted(p.table, path, chunks, 0, sizes), p.written + Written(2, sizes), Rate(1, true),
                p.looks + 3), false)
  {
    assert chunks[0..Min(0 + EMBED_BATCH_MAX, |chunks|)] == chunks;
    assert Take(2, None, p.rate) == 2;
    assert EmbedBudgeted(w, 2, None, p.rate, p.looks + 2) == (sizes, false, Rate(1, true));
  }

  lemma TwoRows(table: Table, path: Path, chunks: seq<string>, sizes: seq<nat>)
    requires chunks == ["a", "b"] && |sizes| == 2 && sizes[1] > 0
    ensures Inserted(table, path, chunks, 0, sizes)
            == (if sizes[0] > 0 then table[Key(path, 0) := "a"] else table)[Key(path, 1) := "b"]
    ensures Written(2, sizes) == if sizes[0] > 0 then 2 else 1
  {
    assert sizes[..1][..0] == [] && Written(2, sizes[..0]) == 0;
    assert Written(2, sizes[..1]) == if sizes[0] > 0 then 1 else 0;
    assert chunks[0] == "a" && chunks[1] == "b";
    assert Inserted(table, path, chunks, 0, sizes[..1]) == if sizes[0] > 0 then table[Key(path, 0) := "a"] else table;
  }

  /** An embedder that returns one empty vector leaves a row the ledger does not account for. */
  lemma EmptyVectorOrphansARow(w: World, after: Sweep)
    requires w == World(TwoChunks, map[], 10, Env(NoDeadline, FirstEmpty))
    requires after == Visit(w, map[], Start(map[], map[], None), "f").0
    ensures after.table == map[Key("f", 1) := "b"] && after.ledger == map["f" := Row("h", 1)]
    ensures !Accounted(after.table, after.ledger)
  {
    var s := Start(map[], map[], None);
    var chunks := TwoChunks("f").chunks;
    assert chunks[..Min(10, |chunks|)] == chunks;
    EmbedOnce(w, "f", chunks, Progress(map[], 0, s.rate, 0), [0, 5]);
    TwoRows(map[], "f", chunks, [0, 5]);
    assert Key("f", 1) in after.table;
  }

  /** No vector that is not empty comes after an empty one. */
  predicate Gapless(sizes: seq<nat>) {
    forall i, j :: 0 <= i < j < |sizes| && sizes[j] > 0 ==> sizes[i] > 0
  }

  lemma {:induction false} WrittenOf(n: nat, sizes: seq<nat>)
    requires |sizes| <= n
    ensures Written(n, sizes) <= |sizes|
    ensures Written(n, sizes) == |sizes| <==> forall i :: 0 <= i < |sizes| ==> sizes[i] > 0
    decreases |sizes|
  {
    if sizes != [] { WrittenOf(n, sizes[..|sizes| - 1]); }
  }

  /** The rows stand under the count if and only if no gap was left. */
  lemma {:induction false} CountedIff(n: nat, sizes: seq<nat>)
    requires |sizes| <= n
    ensures (forall i :: 0 <= i < |sizes| && sizes[i] > 0 ==> i < Written(n, sizes)) <==> Gapless(sizes)
    decreases |sizes|
  {
    if sizes != [] {
      var most := sizes[..|sizes| - 1];
      CountedIff(n, most);
      WrittenOf(n, most);
      if sizes[|most|] == 0 {
        assert Gapless(most) <==> Gapless(sizes);
      } else if Written(n, most) == |most| {
        assert Gapless(sizes);
      } else {
        var i :| 0 <= i < |most| && most[i] == 0;
        assert sizes[i] == 0 && sizes[|most|] > 0;
      }
    }
  }

  /** Everything that comes back for the rest of a file, batch after batch. */
  function RestSizes(w: World, path: Path, chunks: seq<string>, offset: nat, p: Progress): seq<nat>
    decreases |chunks| - offset
  {
    if offset >= |chunks| then []
    else
      var batch := OneBatch(w, path, chunks, offset, p);
      if batch.0 == [] then [] else batch.0 + RestSizes(w, path, chunks, offset + |batch.0|, batch.1)
  }

  function AllSizes(w: World, path: Path, chunks: seq<string>, p: Progress): seq<nat> {
    RestSizes(w, path, chunks, 0, p)
  }

  /** An embedding call returns no more vectors than chunks asked for; they may be empty. */
  ghost predicate FewEnough(env: Env) {
    forall looks: nat, take: nat :: env.embed(looks, take).Vectors? ==> |env.embed(looks, take).sizes| <= take
  }

  /** The path's rows are those of the vectors so far that are not empty, and they are counted. */
  ghost predicate RowsOf(p: Progress, path: Path, sizes: seq<nat>) {
    && (forall i: nat :: Key(path, i) in p.table <==> i < |sizes| && sizes[i] > 0)
    && p.written == Written(|sizes|, sizes)
  }

  lemma {:induction false} WrittenBound(n: nat, m: nat, sizes: seq<nat>)
    requires |sizes| <= n && |sizes| <= m
    ensures Written(n, sizes) == Written(m, sizes)
    decreases |sizes|
  {
    if sizes != [] { WrittenBound(n, m, sizes[..|sizes| - 1]); }
  }

  lemma {:induction false} WrittenMore(a: seq<nat>, b: seq<nat>)
    ensures Written(|a + b|, a + b) == Written(|a|, a) + Written(|b|, b)
    decreases |b|
  {
    if b == [] {
      assert a + b == a;
    } else {
      var most := b[..|b| - 1];
      assert (a + b)[..|a + b| - 1] == a + most;
      WrittenMore(a, most);
      WrittenBound(|a + b|, |a + most|, a + most);
      WrittenBound(|b|, |most|, most);
    }
  }

  /** The rows an insert adds. */
  lemma {:induction false} InsertedKeys(table: Table, path: Path, slice: seq<string>, offset: nat, sizes: seq<nat>)
    requires |sizes| <= |slice|
    ensures forall i: nat ::
              Key(path, i) in Inserted(table, path, slice, offset, sizes)
              <==> Key(path, i) in table || (offset <= i < offset + |sizes| && sizes[i - offset] > 0)
    decreases |sizes|
  {
    if sizes != [] { InsertedKeys(table, path, slice, offset, sizes[..|sizes| - 1]); }
  }

  lemma BatchIsShort(w: World, values: nat, budget: Option<int>, rate: Rate, looks: nat)
    requires FewEnough(w.env)
    ensures |EmbedBudgeted(w, values, budget, rate, looks).0| <= values
  {
    if values > 0 && !OutOfTime(budget) { TakeBound(values, budget, rate); }
  }

  /** What a batch of any embedder leaves. */
  lemma AnyBatch(w: World, path: Path, chunks: seq<string>, offset: nat, p: Progress)
    requires FewEnough(w.env) && offset < |chunks|
    ensures var (sizes, next, ranOut) := OneBatch(w, path, chunks, offset, p);
            && |sizes| <= |SliceAt(chunks, offset)|
            && next.table == (if sizes == [] then p.table
                              else Inserted(p.table, path, SliceAt(chunks, offset), offset, sizes))
            && next.written == p.written + Written(|sizes|, sizes)
  {
    var slice := SliceAt(chunks, offset);
    if !OutOfTime(w.env.clock(p.looks)) {
      BatchIsShort(w, |slice|, w.env.clock(p.looks + 1), p.rate, p.looks + 2);
      var sizes := EmbedBudgeted(w, |slice|, w.env.clock(p.looks + 1), p.rate, p.looks + 2).0;
      WrittenBound(|slice|, |sizes|, sizes);
    }
  }

  /** A batch's rows follow those before it. */
  lemma BatchRowsFollow(
      table: Table, path: Path, slice: seq<string>, offset: nat, done: seq<nat>, sizes: seq<nat>)
    requires |done| == offset && |sizes| <= |slice|
    requires forall i: nat :: Key(path, i) in table <==> i < |done| && done[i] > 0
    ensures forall i: nat ::
              Key(path, i) in Inserted(table, path, slice, offset, sizes)
              <==> i < |done + sizes| && (done + sizes)[i] > 0
  {
    InsertedKeys(table, path, slice, offset, sizes);
  }

  lemma BatchAdds(w: World, path: Path, chunks: seq<string>, offset: nat, p: Progress, done: seq<nat>)
    requires FewEnough(w.env) && offset < |chunks| && |done| == offset && RowsOf(p, path, done)
    ensures var (sizes, next, ranOut) := OneBatch(w, path, chunks, offset, p);
            offset + |sizes| <= |chunks| && RowsOf(next, path, done + sizes)
  {
    var (sizes, next, ranOut) := OneBatch(w, path, chunks, offset, p);
    AnyBatch(w, path, chunks, offset, p);
    if sizes == [] { assert done + sizes == done; }
    else { BatchRowsFollow(p.table, path, SliceAt(chunks, offset), offset, done, sizes); }
    WrittenMore(done, sizes);
  }

  /** The rest of the file, from there, comes to this. */
  predicate Yields(w: World, path: Path, chunks: seq<string>, offset: nat, p: Progress, end: Progress,
      sizes: seq<nat>) {
    end == EmbedRest(w, path, chunks, offset, p).0 && sizes == RestSizes(w, path, chunks, offset, p)
  }

  lemma YieldsOn(
      w: World, path: Path, chunks: seq<string>, offset: nat, p: Progress, end: Progress, all: seq<nat>,
      batch: (seq<nat>, Progress, bool))
    returns (rest: seq<nat>)
    requires offset < |chunks| && Yields(w, path, chunks, offset, p, end, all)
    requires batch == OneBatch(w, path, chunks, offset, p)
    ensures if batch.0 == [] then all == [] && end == batch.1
            else all == batch.0 + rest && Yields(w, path, chunks, offset + |batch.0|, batch.1, end, rest)
  {
    rest := if batch.0 == [] then [] else RestSizes(w, path, chunks, offset + |batch.0|, batch.1);
  }

  /** Every batch adds its vectors' rows to those before. */
  ghost predicate AddedByBatches(inv: (Progress, seq<nat>) -> bool, w: World, path: Path, chunks: seq<string>) {
    forall o: nat, q: Progress, done: seq<nat> {:trigger OneBatch(w, path, chunks, o, q), inv(q, done)} ::
      o < |chunks| && |done| == o && inv(q, done) ==>
        var (sizes, next, ranOut) := OneBatch(w, path, chunks, o, q);
        o + |sizes| <= |chunks| && inv(next, done + sizes)
  }

  lemma AddedByBatch(
      inv: (Progress, seq<nat>) -> bool, w: World, path: Path, chunks: seq<string>, done: seq<nat>, p: Progress)
    returns (batch: (seq<nat>, Progress, bool))
    requires AddedByBatches(inv, w, path, chunks) && |done| < |chunks| && inv(p, done)
    ensures batch == OneBatch(w, path, chunks, |done|, p)
    ensures |done + batch.0| <= |chunks| && inv(batch.1, done + batch.0)
  {
    batch := OneBatch(w, path, chunks, |done|, p);
  }

  lemma AddedByOne(
      inv: (Progress, seq<nat>) -> bool, w: World, path: Path, chunks: seq<string>, done: seq<nat>, p: Progress,
      end: Progress, sizes: seq<nat>)
    returns (first: seq<nat>, next: Progress, rest: seq<nat>)
    requires AddedByBatches(inv, w, path, chunks) && |done| < |chunks| && inv(p, done)
    requires Yields(w, path, chunks, |done|, p, end, sizes)
    ensures |done + first| <= |chunks| && inv(next, done + first)
    ensures if first == [] then sizes == [] && end == next
            else sizes == first + rest && Yields(w, path, chunks, |done + first|, next, end, rest)
  {
    var batch := AddedByBatch(inv, w, path, chunks, done, p);
    rest := YieldsOn(w, path, chunks, |done|, p, end, sizes, batch);
    first, next := batch.0, batch.1;
  }

  lemma {:induction false} AddedByRest(
      inv: (Progress, seq<nat>) -> bool, w: World, path: Path, chunks: seq<string>, done: seq<nat>, p: Progress,
      end: Progress, sizes: seq<nat>)
    requires AddedByBatches(inv, w, path, chunks) && |done| <= |chunks| && inv(p, done)
    requires Yields(w, path, chunks, |done|, p, end, sizes)
    ensures inv(end, done + sizes) && |done + sizes| <= |chunks|
    decreases |chunks| - |done|
  {
    if |done| < |chunks| {
      var first, next, rest := AddedByOne(inv, w, path, chunks, done, p, end, sizes);
      if first == [] {
        assert done + sizes == done == done + first;
      } else {
        AddedByRest(inv, w, path, chunks, done + first, next, end, rest);
        assert done + sizes == done + first + rest;
      }
    } else {
      assert done + sizes == done;
    }
  }

  /** A file's rows are those of its vectors that are not empty, each at its own place, in however many batches. */
  lemma FileRowsAre(w: World, path: Path, chunks: seq<string>, p: Progress)
    requires FewEnough(w.env) && p.written == 0 && forall i: nat :: Key(path, i) !in p.table
    ensures var sizes := AllSizes(w, path, chunks, p);
            |sizes| <= |chunks| && RowsOf(EmbedRest(w, path, chunks, 0, p).0, path, sizes)
  {
    var inv := (q: Progress, done: seq<nat>) => RowsOf(q, path, done);
    forall o: nat, q: Progress, done: seq<nat> | o < |chunks| && |done| == o && inv(q, done)
      ensures var (sizes, next, ranOut) := OneBatch(w, path, chunks, o, q);
              o + |sizes| <= |chunks| && inv(next, done + sizes)
    {
      BatchAdds(w, path, chunks, o, q, done);
    }
    var sizes := AllSizes(w, path, chunks, p);
    AddedByRest(inv, w, path, chunks, [], p, EmbedRest(w, path, chunks, 0, p).0, sizes);
    assert [] + sizes == sizes;
  }

  /**
   Whatever vectors come back for a file, in however many batches: the rows written all stand under the count if and
   only if, through all of them in order, no vector that is not empty comes after an empty one.
   */
  lemma OrphanFreeIff(w: World, path: Path, chunks: seq<string>, p: Progress)
    requires FewEnough(w.env) && p.written == 0 && forall i: nat :: Key(path, i) !in p.table
    ensures var (q, ranOut) := EmbedRest(w, path, chunks, 0, p);
            (forall i: nat :: Key(path, i) in q.table ==> i < q.written) <==> Gapless(AllSizes(w, path, chunks, p))
  {
    var sizes := AllSizes(w, path, chunks, p);
    FileRowsAre(w, path, chunks, p);
    CountedIff(|sizes|, sizes);
  }

  /** What a re-embedding starts from: no rows of the path, nothing written. */
  function Emptied(w: World, before: Ledger, s: Sweep, path: Path): Progress {
    Progress(if path in before then DeleteRows(s.table, path, before[path].chunks) else s.table, 0, s.rate, s.looks)
  }

  function Budgeted(w: World, s: Sweep, chunks: seq<string>): seq<string> {
    chunks[..Min(if w.maxChunks >= s.stats.chunks then w.maxChunks - s.stats.chunks else 0, |chunks|)]
  }

  /**
   A visit to a changed file whose old rows were accounted for: if the file is recorded, its rows all stand under the
   recorded count, and if it is not, none of them is left, if and only if the vectors that came back leave no gap.
   */
  lemma VisitOrphanFreeIff(w: World, before: Ledger, s: Sweep, path: Path, hash: Hash, chunks: seq<string>)
    requires FewEnough(w.env)
    requires forall i: nat :: Key(path, i) in s.table ==> path in before && i < before[path].chunks
    ensures var budgeted := Budgeted(w, s, chunks);
            var (p, ranOut) := EmbedRest(w, path, budgeted, 0, Emptied(w, before, s, path));
            var next := Reembedded(w, before, s, path, hash, chunks).0;
            (if p.written > 0 && (p.written == |budgeted| || !ranOut)
             then path in next.ledger && forall i: nat :: Key(path, i) in next.table ==> i < next.ledger[path].chunks
             else forall i: nat :: Key(path, i) !in next.table)
            <==> Gapless(AllSizes(w, path, budgeted, Emptied(w, before, s, path)))
  {
    var budgeted := Budgeted(w, s, chunks);
    var start := Emptied(w, before, s, path);
    OrphanFreeIff(w, path, budgeted, start);
    FileRowsAre(w, path, budgeted, start);
    var (p, ranOut) := EmbedRest(w, path, budgeted, 0, start);
    var sizes := AllSizes(w, path, budgeted, start);
    if p.written == 0 { NoneWritten(|sizes|, sizes); }
  }

  lemma {:induction false} NoneWritten(n: nat, sizes: seq<nat>)
    requires |sizes| <= n && Written(n, sizes) == 0
    ensures forall i :: 0 <= i < |sizes| ==> sizes[i] == 0
    decreases |sizes|
  {
    if sizes != [] { NoneWritten(n, sizes[..|sizes| - 1]); }
  }

  lemma IndexedInFull(w: World, s: Sweep)
    requires w == World(TwoChunks, map[], 10, Env(NoDeadline, BothFull)) && s.stats.chunks <= 8
    ensures var next := Visit(w, map[], s, "f").0;
            && next.ledger == s.ledger["f" := Row("h", 2)] && next.stats.added == s.stats.added + 1
            && next.stats.chunks == s.stats.chunks + 2 && next.stats.removed == s.stats.removed
  {
    var chunks := TwoChunks("f").chunks;
    assert chunks[..Min(10 - s.stats.chunks, |chunks|)] == chunks;
    EmbedOnce(w, "f", chunks, Progress(s.table, 0, s.rate, s.looks), [5, 5]);
    TwoRows(s.table, "f", chunks, [5, 5]);
  }

  /** A path listed twice is counted twice. */
  lemma ListedTwiceCountsTwice(w: World, s1: Sweep, s2: Sweep)
    requires w == World(TwoChunks, map[], 10, Env(NoDeadline, BothFull))
    requires s1 == Visit(w, map[], Start(map[], map[], None), "f").0 && s2 == Visit(w, map[], s1, "f").0
    ensures |s2.ledger| == 1 && Covered(map[], 2, s2.stats, s2.rate, None).indexedFiles == 2
  {
    IndexedInFull(w, Start(map[], map[], None));
    IndexedInFull(w, s1);
    assert s2.ledger == map["f" := Row("h", 2)];
  }

  /** The visit recorded the file. */
  predicate Recorded(s: Sweep, next: Sweep) {
    next.stats.indexed > s.stats.indexed
  }

  /**
   A path listed twice: after both visits the files counted as added are the ledger rows added if and only if the path
   was in the ledger before the sweep, or at most one of its visits recorded it.
   */
  lemma RepeatedListingIff(w: World, before: Ledger, s: Sweep, path: Path)
    requires path in before <==> path in s.ledger
    ensures var one := Visit(w, before, s, path).0; var two := Visit(w, before, one, path).0;
            |two.ledger| - |s.ledger| == two.stats.added - s.stats.added
            <==> path in before || !Recorded(s, one) || !Recorded(one, two)
  {
    var one := Visit(w, before, s, path).0;
    VisitCounts(w, before, s, path);
    VisitCounts(w, before, one, path);
  }

  predicate CountsOnce(before: Ledger, path: Path, ledger0: Ledger, stats0: Stats, ledger: Ledger, stats: Stats) {
    var recorded := stats.indexed > stats0.indexed;
    && ledger.Keys == ledger0.Keys + (if recorded then {path} else {})
    && stats.added == stats0.added + (if recorded && path !in before then 1 else 0)
  }

  lemma SettledCounts(
      w: World, before: Ledger, ledger0: Ledger, stats0: Stats, path: Path, hash: Hash, budgeted: nat, cut: bool,
      p: Progress, ranOut: bool)
    ensures var next := CodeIndexSpec.Settled(w, before, ledger0, stats0, path, hash, budgeted, cut, p, ranOut).0;
            CountsOnce(before, path, ledger0, stats0, next.ledger, next.stats)
  {
  }

  lemma VisitCountsOnce(w: World, before: Ledger, s: Sweep, path: Path)
    ensures var next := Visit(w, before, s, path).0;
            CountsOnce(before, path, s.ledger, s.stats, next.ledger, next.stats)
  {
    if !Unchanged(w, before, path) && w.files(path).Text? {
      var chunks := w.files(path).chunks;
      var budgeted := Budgeted(w, s, chunks);
      var (p, ranOut) := EmbedRest(w, path, budgeted, 0, Emptied(w, before, s, path));
      SettledCounts(w, before, s.ledger, s.stats, path, if path in w.pre then w.pre[path] else w.files(path).hash,
                    |budgeted|, |budgeted| < |chunks|, p, ranOut);
    }
  }

  lemma VisitCounts(w: World, before: Ledger, s: Sweep, path: Path)
    ensures var next := Visit(w, before, s, path).0;
            && (path in next.ledger <==> path in s.ledger || Recorded(s, next))
            && |next.ledger| == |s.ledger| + (if Recorded(s, next) && path !in s.ledger then 1 else 0)
            && next.stats.added == s.stats.added + (if Recorded(s, next) && path !in before then 1 else 0)
  {
    VisitCountsOnce(w, before, s, path);
    var next := Visit(w, before, s, path).0;
    assert |next.ledger| == |next.ledger.Keys| && |s.ledger| == |s.ledger.Keys|;
    if path in s.ledger { assert s.ledger.Keys + {path} == s.ledger.Keys; }
  }

  // ---------------------------------------------------------------- the rows of a path listed twice

  /** The path's rows are exactly those its ledger row counts. */
  ghost predicate Exact(s: Sweep, path: Path) {
    path in s.ledger && forall i: nat :: Key(path, i) in s.table <==> i < s.ledger[path].chunks
  }

  /** The first `m` rows of the path, over what an earlier visit left from `d` to `n`. */
  ghost predicate Overlaid(table: Table, path: Path, m: nat, d: nat, n: nat) {
    forall i: nat :: Key(path, i) in table <==> i < m || d <= i < n
  }

  lemma {:induction false} InsertedOver(
      table: Table, path: Path, slice: seq<string>, offset: nat, sizes: seq<nat>, d: nat, n: nat)
    requires Overlaid(table, path, offset, d, n) && |sizes| <= |slice| && forall size <- sizes :: size > 0
    ensures Overlaid(Inserted(table, path, slice, offset, sizes), path, offset + |sizes|, d, n)
    decreases |sizes|
  {
    if sizes != [] {
      var i := |sizes| - 1;
      assert sizes[i] in sizes && forall size <- sizes[..i] :: size in sizes;
      InsertedOver(table, path, slice, offset, sizes[..i], d, n);
    }
  }

  lemma EmbedsOver(w: World, path: Path, chunks: seq<string>, p: Progress, d: nat, n: nat)
    requires GoodEmbedder(w.env) && p.written == 0 && Overlaid(p.table, path, 0, d, n)
    ensures var q := EmbedRest(w, path, chunks, 0, p).0; Overlaid(q.table, path, q.written, d, n)
  {
    var inv := (table: Table, m: nat) => Overlaid(table, path, m, d, n);
    forall o: nat, q: Progress | o < |chunks| && q.written == o && inv(q.table, o)
      ensures var (sizes, next, ranOut) := OneBatch(w, path, chunks, o, q);
              next.written == o + |sizes| <= |chunks| && inv(next.table, next.written)
    {
      Batch(w, path, chunks, o, q, false);
      var (sizes, next, ranOut) := OneBatch(w, path, chunks, o, q);
      if sizes != [] { InsertedOver(q.table, path, SliceAt(chunks, o), o, sizes, d, n); }
    }
    KeptByRest(inv, w, path, chunks, 0, p, EmbedRest(w, path, chunks, 0, p));
  }

  /** How many rows the ledger held for the path when the sweep began. */
  function OldCount(before: Ledger, path: Path): nat {
    if path in before then before[path].chunks else 0
  }

  lemma SettledOver(w: World, before: Ledger, s: Sweep, path: Path, hash: Hash, budgeted: nat, cut: bool, p: Progress,
      ranOut: bool)
    requires path in s.ledger && s.ledger[path].chunks > 0
    requires Overlaid(p.table, path, p.written, OldCount(before, path), s.ledger[path].chunks)
    ensures var next := CodeIndexSpec.Settled(w, before, s.ledger, s.stats, path, hash, budgeted, cut, p, ranOut).0;
            var n, d := s.ledger[path].chunks, OldCount(before, path);
            Exact(next, path)
            <==> if Recorded(s, next) then n <= d || n <= next.ledger[path].chunks else d == 0 && p.written == 0
  {
    var next := CodeIndexSpec.Settled(w, before, s.ledger, s.stats, path, hash, budgeted, cut, p, ranOut).0;
    var n, d := s.ledger[path].chunks, OldCount(before, path);
    if Recorded(s, next) {
      assert next.table == p.table;
      assert d <= n - 1 < n ==> Key(path, n - 1) in next.table;
    } else {
      assert Key(path, 0) in next.table <==> d == 0 && p.written == 0;
    }
  }

  /**
   The second visit recorded no fewer rows than stood there, or the old ones deleted first cover those; or it recorded
   nothing, having found nothing to delete and written nothing.
   */
  predicate NoFewer(w: World, before: Ledger, s: Sweep, next: Sweep, path: Path)
    requires w.files(path).Text? && path in s.ledger
  {
    var n := s.ledger[path].chunks;
    if Recorded(s, next) then n <= OldCount(before, path) || (path in next.ledger && n <= next.ledger[path].chunks)
    else OldCount(before, path) == 0 && Writes(w, before, s, path) == 0
  }

  /** How many rows the visit embeds, kept or not. */
  function Writes(w: World, before: Ledger, s: Sweep, path: Path): nat
    requires w.files(path).Text?
  {
    EmbedRest(w, path, Budgeted(w, s, w.files(path).chunks), 0, Emptied(w, before, s, path)).0.written
  }

  /** A second visit in one sweep, to a path whose rows the ledger counts by now. */
  lemma SecondVisitIff(w: World, before: Ledger, s: Sweep, path: Path)
    requires GoodEmbedder(w.env) && !Unchanged(w, before, path) && w.files(path).Text?
    requires Exact(s, path) && s.ledger[path].chunks > 0
    ensures var next := Visit(w, before, s, path).0; Exact(next, path) <==> NoFewer(w, before, s, next, path)
  {
    var chunks := w.files(path).chunks;
    var budgeted := Budgeted(w, s, chunks);
    var start := Emptied(w, before, s, path);
    EmbedsOver(w, path, budgeted, start, OldCount(before, path), s.ledger[path].chunks);
    var (p, ranOut) := EmbedRest(w, path, budgeted, 0, start);
    SettledOver(w, before, s, path, if path in w.pre then w.pre[path] else w.files(path).hash, |budgeted|,
        |budgeted| < |chunks|, p, ranOut);
  }

  lemma RecordedIsExact(w: World, before: Ledger, s: Sweep, path: Path)
    requires GoodEmbedder(w.env) && Accounted(s.table, s.ledger) && s.stats.chunks <= w.maxChunks
    requires path in before ==> path in s.ledger && s.ledger[path] == before[path]
    requires path !in before ==> path !in s.ledger
    requires Recorded(s, Visit(w, before, s, path).0)
    ensures var next := Visit(w, before, s, path).0; Exact(next, path) && next.ledger[path].chunks > 0
    ensures !Unchanged(w, before, path) && w.files(path).Text?
  {
    var m := ReembedShape(w, before, s, path);
    assert Visit(w, before, s, path).0.stats.chunks > s.stats.chunks;
  }

  /**
   A path listed twice and recorded by its first visit: after the second its rows are exactly those its ledger row
   counts if and only if that visit recorded no fewer rows than the first, or the rows the first left over were deleted
   with the old ones, or it recorded nothing, having found nothing to delete and written nothing.
   */
  lemma RepeatedRowsIff(w: World, before: Ledger, s: Sweep, path: Path)
    requires GoodEmbedder(w.env) && Accounted(s.table, s.ledger) && s.stats.chunks <= w.maxChunks
    requires path in before ==> path in s.ledger && s.ledger[path] == before[path]
    requires path !in before ==> path !in s.ledger
    requires w.files(path).Text? && Recorded(s, Visit(w, before, s, path).0)
    ensures var one := Visit(w, before, s, path).0; var two := Visit(w, before, one, path).0;
            Exact(one, path) && (Exact(two, path) <==> NoFewer(w, before, one, two, path))
  {
    RecordedIsExact(w, before, s, path);
    SecondVisitIff(w, before, Visit(w, before, s, path).0, path);
  }
}
