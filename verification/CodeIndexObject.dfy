/** The index object: its sweep, in place, proved against the step functions and the promises of a refresh. */
module CodeIndexObject {
  import opened Options
  import opened CodeIndexSpec
  import opened CodeIndexTheorems
  import Ordering = OrderingSpec
  import OrderingFacts = OrderingTheorems

  lemma GroupsMore(rest: seq<Path>, n: nat)
    requires n < |rest|
    ensures forall k: string :: Ordering.Group(rest[..n + 1], k)
                                == Ordering.Group(rest[..n], k) + (if k == Ordering.Top(rest[n]) then [rest[n]] else [])
  {
    forall k: string
      ensures Ordering.Group(rest[..n + 1], k)
              == Ordering.Group(rest[..n], k) + (if k == Ordering.Top(rest[n]) then [rest[n]] else [])
    {
      assert rest[..n + 1] == rest[..n] + [rest[n]];
      OrderingFacts.FilterConcat(rest[..n], [rest[n]], Ordering.InGroup(k));
      assert [rest[n]][1..] == [];
    }
  }

  lemma KeysMore(rest: seq<Path>, n: nat)
    requires n < |rest|
    ensures var key := Ordering.Top(rest[n]); var before := Ordering.Keys(rest[..n]);
            Ordering.Keys(rest[..n + 1]) == if key in before then before else before + [key]
  {
    assert rest[..n + 1][..n] == rest[..n];
  }

  /** The listing's paths by directory, each directory's in listing order. */
  method GroupByTop(rest: seq<Path>) returns (groups: map<string, seq<Path>>, keys: seq<string>)
    ensures keys == Ordering.Keys(rest) && (forall key: string :: key in keys <==> key in groups)
    ensures forall key <- groups :: groups[key] == Ordering.Group(rest, key)
  {
    groups, keys := map[], [];
    for n := 0 to |rest|
      invariant keys == Ordering.Keys(rest[..n])
      invariant forall key: string :: key in keys <==> key in groups
      invariant forall key: string :: Ordering.Group(rest[..n], key) == if key in groups then groups[key] else []
    {
      var key := Ordering.Top(rest[n]);
      GroupsMore(rest, n);
      KeysMore(rest, n);
      if key !in groups {
        groups, keys := groups[key := [rest[n]]], keys + [key];
      } else {
        groups := groups[key := groups[key] + [rest[n]]];
      }
    }
    assert rest[..|rest|] == rest;
  }

  lemma {:induction false} RoundSplit(rest: seq<Path>, keys: seq<string>, k: nat, i: nat)
    requires k < |keys|
    ensures Ordering.Round(rest, keys[..k + 1], i)
            == Ordering.Round(rest, keys[..k], i)
                + (if i < |Ordering.Group(rest, keys[k])| then [Ordering.Group(rest, keys[k])[i]] else [])
    decreases k
  {
    if k > 0 {
      RoundSplit(rest, keys[1..], k - 1, i);
      assert keys[..k + 1][1..] == keys[1..][..k] && keys[..k][1..] == keys[1..][..k - 1];
    } else {
      assert keys[..1][1..] == [];
    }
  }

  method Interleave(rest: seq<Path>, keys: seq<string>, groups: map<string, seq<Path>>) returns (all: seq<Path>)
    requires forall key <- keys :: key in groups && groups[key] == Ordering.Group(rest, key)
    ensures all == Ordering.Rounds(rest, keys, 0)
  {
    all := [];
    var i := 0;
    while true
      invariant all + Ordering.Rounds(rest, keys, i) == Ordering.Rounds(rest, keys, 0)
      decreases |rest| - i
    {
      var round := [];
      for k := 0 to |keys|
        invariant round == Ordering.Round(rest, keys[..k], i)
      {
        RoundSplit(rest, keys, k, i);
        if i < |groups[keys[k]]| { round := round + [groups[keys[k]][i]]; }
      }
      assert keys[..|keys|] == keys;
      if round == [] { return; }
      all := all + round;
      i := i + 1;
    }
  }

  method OrderPaths(o: Ordering.Order, paths: seq<Path>, cursor: Option<Path>) returns (r: seq<Path>)
    ensures r == Ordering.Ordered(o, paths, cursor)
  {
    var relevant := Ordering.Relevant(o, paths);
    var rest := Ordering.Rest(o, paths);
    var groups, keys := GroupByTop(rest);
    var sorted := Ordering.Sort(keys, Ordering.ByCode(o));
    forall key | key in sorted ensures key in groups {
      OrderingFacts.SortCounts(keys, Ordering.ByCode(o));
      assert key in multiset(keys);
    }
    var interleaved := Interleave(rest, sorted, groups);
    r := relevant + Ordering.Rotated(interleaved, cursor);
  }

  lemma {:induction false} InsertedPrefix(table: Table, path: Path, slice: seq<string>, offset: nat, sizes: seq<nat>,
      i: nat)
    requires i < |sizes|
    ensures var rest := Inserted(table, path, slice, offset, sizes[..i]);
            Inserted(table, path, slice, offset, sizes[..i + 1])
            == if sizes[i] > 0 && i < |slice| then rest[Key(path, offset + i) := slice[i]] else rest
    ensures Written(|slice|, sizes[..i + 1])
            == Written(|slice|, sizes[..i]) + (if sizes[i] > 0 && i < |slice| then 1 else 0)
  {
    assert sizes[..i + 1][..i] == sizes[..i];
  }

  class NucleusCodeIndex {
    var table: Table
    var ledger: Ledger
    var coverage: Option<Coverage>

    constructor ()
      ensures table == map[] && ledger == map[] && coverage == None
    {
      table, ledger, coverage := map[], map[], None;
    }

    method DeleteFileChunks(path: Path, count: nat)
      modifies this`table
      ensures table == DeleteRows(old(table), path, count)
    {
      assert table == DeleteRows(old(table), path, 0);
      for i := 0 to count
        invariant table == DeleteRows(old(table), path, i)
      {
        table := table - {Key(path, i)};
      }
    }

    method InsertBatch(path: Path, slice: seq<string>, offset: nat, sizes: seq<nat>) returns (written: nat)
      modifies this`table
      ensures table == Inserted(old(table), path, slice, offset, sizes) && written == Written(|slice|, sizes)
    {
      written := 0;
      for i := 0 to |sizes|
        invariant table == Inserted(old(table), path, slice, offset, sizes[..i])
                  && written == Written(|slice|, sizes[..i])
      {
        InsertedPrefix(old(table), path, slice, offset, sizes, i);
        if sizes[i] > 0 && i < |slice| {
          table := table[Key(path, offset + i) := slice[i]];
          written := written + 1;
        }
      }
      assert sizes[..|sizes|] == sizes;
    }

    /** One batch: the number of vectors that came back, none when time or the embedder gave out. */
    method EmbedBatch(w: World, path: Path, chunks: seq<string>, offset: nat, p: Progress)
      returns (n: nat, next: Progress, ranOut: bool)
      requires offset < |chunks| && p.table == table
      modifies this`table
      ensures var batch := OneBatch(w, path, chunks, offset, p); n == |batch.0| && next == batch.1 && ranOut == batch.2
      ensures table == next.table
    {
      var left := w.env.clock(p.looks);
      if OutOfTime(left) { return 0, p.(looks := p.looks + 1), true; }
      var slice := SliceAt(chunks, offset);
      var (sizes, timedOut, learned) := EmbedBudgeted(w, |slice|, w.env.clock(p.looks + 1), p.rate, p.looks + 2);
      if sizes == [] { return 0, p.(rate := learned, looks := p.looks + 3), timedOut; }
      var more := InsertBatch(path, slice, offset, sizes);
      return |sizes|, Progress(table, p.written + more, learned, p.looks + 3), false;
    }

    /** Embeds a file's chunks batch by batch and inserts their rows. */
    method EmbedFile(w: World, path: Path, chunks: seq<string>, start: Progress) returns (p: Progress, ranOut: bool)
      requires start.table == table
      modifies this`table
      ensures (p, ranOut) == EmbedRest(w, path, chunks, 0, start) && table == p.table
    {
      p, ranOut := start, false;
      var offset := 0;
      ghost var whole := EmbedRest(w, path, chunks, offset, p);
      while offset < |chunks|
        invariant Leads(w, path, chunks, offset, p, whole)
        invariant table == p.table && !ranOut
        decreases |chunks| - offset
      {
        LeadsOn(w, path, chunks, offset, p, whole);
        var n, next, out := EmbedBatch(w, path, chunks, offset, p);
        if n == 0 { return next, out; }
        p, offset := next, offset + n;
      }
    }

    method VisitFile(w: World, before: Ledger, path: Path, stats0: Stats, rate0: Rate, looks0: nat)
      returns (stats: Stats, rate: Rate, looks: nat, stop: bool)
      modifies this`table, this`ledger
      ensures (Sweep(table, ledger, stats, rate, looks), stop)
              == Visit(w, before, Sweep(old(table), old(ledger), stats0, rate0, looks0), path)
    {
      stats, rate, looks, stop := stats0, rate0, looks0, false;
      if path in before && path in w.pre && before[path].hash == w.pre[path] {
        stats := stats.(skipped := stats.skipped + 1, cursor := Some(path));
        return;
      }
      var file := w.files(path);
      if !file.Text? { return; }
      var hash := if path in w.pre then w.pre[path] else file.hash;
      if path in before && before[path].hash == hash {
        stats := stats.(skipped := stats.skipped + 1, cursor := Some(path));
        return;
      }
      stats, rate, looks, stop := ReembedFile(w, before, path, hash, file.chunks, stats, rate, looks);
    }

    method ReembedFile(w: World, before: Ledger, path: Path, hash: Hash, chunks: seq<string>, stats0: Stats,
        rate0: Rate, looks0: nat)
      returns (stats: Stats, rate: Rate, looks: nat, stop: bool)
      modifies this`table, this`ledger
      ensures (Sweep(table, ledger, stats, rate, looks), stop)
              == Reembedded(w, before, Sweep(old(table), old(ledger), stats0, rate0, looks0), path, hash, chunks)
    {
      if path in before { DeleteFileChunks(path, before[path].chunks); }
      var start := Progress(table, 0, rate0, looks0);
      var room := if w.maxChunks >= stats0.chunks then w.maxChunks - stats0.chunks else 0;
      var budgeted := chunks[..Min(room, |chunks|)];
      var p, ranOut := EmbedFile(w, path, budgeted, start);
      rate := p.rate;
      ReembedUnfold(w, before, Sweep(old(table), old(ledger), stats0, rate0, looks0), path, hash, chunks, budgeted,
          start,
                    p, ranOut);
      stats, looks, stop := SettleFile(w, before, path, hash, |budgeted|, |budgeted| < |chunks|, p.written, ranOut,
          stats0, rate, p.looks);
    }

    /** Records a whole file, or drops the rows of one that was not finished. */
    method SettleFile(w: World, before: Ledger, path: Path, hash: Hash, budgeted: nat, cut: bool, written0: nat,
        ranOut: bool,
                      stats0: Stats, rate: Rate, looks0: nat) returns (stats: Stats, looks: nat, stop: bool)
      modifies this`table, this`ledger
      ensures (Sweep(table, ledger, stats, rate, looks), stop)
              == Settled(w, before, old(ledger), stats0, path, hash, budgeted, cut,
                         Progress(old(table), written0, rate, looks0), ranOut)
    {
      var written := written0;
      stats, looks := stats0, looks0;
      if cut { stats := stats.(capped := true); }
      if written > 0 && (written == budgeted || !ranOut) {
        ledger := ledger[path := Row(hash, written)];
        stats := stats.(indexed := stats.indexed + 1, cursor := Some(path));
        if path !in before { stats := stats.(added := stats.added + 1); }
      } else if written > 0 {
        DeleteFileChunks(path, written);
        written := 0;
      }
      stats := stats.(chunks := stats.chunks + written);
      if ranOut {
        stats := stats.(timedOut := true, capped := true);
        stop := OutOfTime(w.env.clock(looks));
        looks := looks + 1;
      } else {
        stop := stats.capped;
      }
    }

    method SweepFiles(w: World, paths: seq<Path>, learned: Option<nat>) returns (stats: Stats, rate: Rate, looks: nat)
      modifies this`table, this`ledger
      ensures Sweep(table, ledger, stats, rate, looks)
              == SweepFrom(w, old(ledger), paths, 0, Start(old(table), old(ledger), learned))
    {
      var before := ledger;
      stats, looks := NoStats, 0;
      rate := if learned.Some? then Rate(learned.value, true) else Rate(EMBED_MS_PER_CHUNK_GUESS, false);
      for i := 0 to |paths|
        invariant SweepFrom(w, before, paths, i, Sweep(table, ledger, stats, rate, looks))
                  == SweepFrom(w, before, paths, 0, Start(old(table), before, learned))
      {
        if stats.chunks >= w.maxChunks {
          stats := stats.(capped := true);
          return;
        }
        var left := w.env.clock(looks);
        if OutOfTime(left) {
          stats, looks := stats.(capped := true, timedOut := true), looks + 1;
          return;
        }
        ghost var s := Sweep(table, ledger, stats, rate, looks);
        var stop;
        stats, rate, looks, stop := VisitFile(w, before, paths[i], stats, rate, looks + 1);
        Unfold(w, before, paths, i, s, Sweep(table, ledger, stats, rate, looks), stop);
        if stop { return; }
      }
    }

    /** Files that left the tree take their chunks with them. */
    method Purge(before: Ledger, gone: set<Path>)
      requires gone <= before.Keys
      modifies this`table, this`ledger
      ensures table == PurgedRows(old(table), before, gone) && ledger == old(ledger) - gone
    {
      var left := gone;
      ghost var done: set<Path> := {};
      assert table == PurgedRows(old(table), before, {});
      while left != {}
        invariant left <= gone && done == gone - left
        invariant ledger == old(ledger) - done
        invariant table == PurgedRows(old(table), before, done)
        decreases |left|
      {
        var path :| path in left;
        PurgeOne(old(table), before, done, path);
        DeleteFileChunks(path, before[path].chunks);
        ledger := ledger - {path};
        left, done := left - {path}, done + {path};
      }
      assert done == gone;
    }

    method RunRefresh(w: World, tracked: seq<Path>, o: Ordering.Order) returns (stats: Stats, rate: Rate, looks: nat)
      modifies this
      ensures var cursor := if old(coverage).Some? then old(coverage).value.cursor else None;
              var learned := if old(coverage).Some? then old(coverage).value.msPerChunk else None;
              && Sweep(table, ledger, stats, rate, looks)
                 == Refreshed(w, old(table), old(ledger), tracked, Ordering.Ordered(o, tracked, cursor), learned)
              && coverage == Some(Covered(old(ledger), |tracked|, stats, rate, learned))
    {
      var before := ledger;
      var cursor := if coverage.Some? then coverage.value.cursor else None;
      var learned := if coverage.Some? then coverage.value.msPerChunk else None;
      var paths := OrderPaths(o, tracked, cursor);
      stats, rate, looks := SweepFiles(w, paths, learned);
      var gone := Gone(before, tracked);
      Purge(before, gone);
      stats := stats.(removed := stats.removed + |gone|);
      coverage := Some(Covered(before, |tracked|, stats, rate, learned));
    }

    /** One refresh of the repository's index. */
    method Refresh(w: World, tracked: seq<Path>, o: Ordering.Order) returns (stats: Stats)
      requires GoodEmbedder(w.env) && OrderingFacts.Distinct(tracked) && Accounted(table, ledger)
      modifies this
      ensures Accounted(table, ledger) && ledger.Keys <= Elements(tracked)
      ensures forall path <- old(ledger) :: path in tracked && Unchanged(w, old(ledger), path) ==>
                path in ledger && ledger[path] == old(ledger)[path] && SameRows(table, old(table), path)
      ensures forall path :: Faithful(w, old(ledger), table, ledger, path)
      ensures stats.chunks <= w.maxChunks
      ensures coverage.Some? && coverage.value.indexedFiles == |ledger| <= coverage.value.trackedFiles == |tracked|
      ensures !coverage.value.partial ==> ledger.Keys == Elements(tracked)
    {
      ghost var cursor := if coverage.Some? then coverage.value.cursor else None;
      ghost var learned := if coverage.Some? then coverage.value.msPerChunk else None;
      ghost var paths := Ordering.Ordered(o, tracked, cursor);
      OrderingFacts.OrderedIsDistinct(o, tracked, cursor);
      assert Elements(paths) == Elements(tracked);
      RefreshSound(w, table, ledger, tracked, paths, learned);
      CoverageIsTrue(w, table, ledger, tracked, paths, learned);
      var rate, looks;
      stats, rate, looks := RunRefresh(w, tracked, o);
      ghost var after := Sweep(table, ledger, stats, rate, looks);
      assert Sound(w, old(table), old(ledger), Elements(tracked), after);
    }
  }

  lemma PurgeOne(table: Table, before: Ledger, done: set<Path>, path: Path)
    requires done <= before.Keys && path in before
    ensures PurgedRows(table, before, done + {path})
            == DeleteRows(PurgedRows(table, before, done), path, before[path].chunks)
  {
  }
}
