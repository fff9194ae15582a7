/**
 The incremental code index: a ledger of file hashes and a table of chunk rows, kept in step by a sweep that may
 stop at a chunk cap, at a deadline, or when the embedder fails. Clock and embedder are oracles.
 */
module CodeIndexSpec {
  import opened Options

  type Path = string
  type Hash = string

  const EMBED_BATCH_MAX: nat := 64
  const EMBED_PROBE_CHUNKS: nat := 4
  const EMBED_MS_PER_CHUNK_GUESS: nat := 1000

  datatype Key = Key(path: Path, index: nat)
  datatype Row = Row(hash: Hash, chunks: nat)
  type Table = map<Key, string>
  type Ledger = map<Path, Row>

  /** A tracked file as the sweep finds it; unfit is empty, too large or binary. */
  datatype File = Unreadable | Unfit | Text(hash: Hash, chunks: seq<string>)

  datatype Rate = Rate(msPerChunk: nat, measured: bool)

  /** The sizes of the vectors an embedding call returned. */
  datatype Answer = Failed(elapsed: nat) | Vectors(sizes: seq<nat>, elapsed: nat)

  /**
   `clock(k)`: time left at the k-th look, none without a deadline. `embed(k, take)`: the answer to a call for `take`
   chunks.
   */
  datatype Env = Env(clock: nat -> Option<int>, embed: (nat, nat) -> Answer)

  /** `pre`: the hashes one round trip gave for all paths; empty when git could not. */
  datatype World = World(files: Path -> File, pre: map<Path, Hash>, maxChunks: nat, env: Env)

  datatype Stats = Stats(indexed: nat, removed: nat, chunks: nat, capped: bool, timedOut: bool, skipped: nat,
      added: nat,
                         cursor: Option<Path>)

  const NoStats := Stats(0, 0, 0, false, false, 0, 0, None)

  /** `looks` counts the questions put to the oracles so far. */
  datatype Sweep = Sweep(table: Table, ledger: Ledger, stats: Stats, rate: Rate, looks: nat)

  function Min(a: nat, b: nat): nat {
    if a <= b then a else b
  }

  function Max(a: nat, b: nat): nat {
    if a >= b then a else b
  }

  predicate OutOfTime(budget: Option<int>) {
    budget.Some? && budget.value <= 0
  }

  function DeleteRows(table: Table, path: Path, count: nat): Table {
    map key | key in table && !(key.path == path && key.index < count) :: table[key]
  }

  // ---------------------------------------------------------------- embedding

  function Take(values: nat, budget: Option<int>, rate: Rate): nat
    requires values > 0 && !OutOfTime(budget)
  {
    var affordable := if budget.Some? then budget.value / Max(1, rate.msPerChunk) else values;
    var ceiling := if rate.measured then EMBED_BATCH_MAX else Min(EMBED_BATCH_MAX, EMBED_PROBE_CHUNKS);
    Max(if rate.measured then 0 else 1, Min(values, Min(affordable, ceiling)))
  }

  /** Nearest whole number, halves up. */
  function Rounded(elapsed: nat, take: nat): nat
    requires take > 0
  {
    (2 * elapsed + take) / (2 * take)
  }

  /** The vectors' sizes, whether time ran out, and the rate learned. */
  function EmbedBudgeted(w: World, values: nat, budget: Option<int>, rate: Rate, looks: nat): (seq<nat>, bool, Rate) {
    if values == 0 then ([], false, rate)
    else if OutOfTime(budget) then ([], true, rate)
    else
      var take := Take(values, budget, rate);
      if take == 0 then ([], true, rate)
      else match w.env.embed(looks, take)
        case Vectors(sizes, elapsed) => (sizes, false, Rate(Max(1, Rounded(elapsed, take)), true))
        case Failed(elapsed) => ([], true, Rate(Max(rate.msPerChunk, Rounded(elapsed, take)), true))
  }

  /** Rows are written for the vectors that are not empty. */
  function Inserted(table: Table, path: Path, slice: seq<string>, offset: nat, sizes: seq<nat>): Table
    decreases |sizes|
  {
    if sizes == [] then table
    else
      var i := |sizes| - 1;
      var rest := Inserted(table, path, slice, offset, sizes[..i]);
      if sizes[i] > 0 && i < |slice| then rest[Key(path, offset + i) := slice[i]] else rest
  }

  function Written(slice: nat, sizes: seq<nat>): nat
    decreases |sizes|
  {
    if sizes == [] then 0
    else
      var i := |sizes| - 1;
      Written(slice, sizes[..i]) + (if sizes[i] > 0 && i < slice then 1 else 0)
  }

  datatype Progress = Progress(table: Table, written: nat, rate: Rate, looks: nat)

  function SliceAt(chunks: seq<string>, offset: nat): seq<string>
    requires offset <= |chunks|
  {
    chunks[offset..Min(offset + EMBED_BATCH_MAX, |chunks|)]
  }

  /** One batch: the vectors' sizes, the rows and rate it leaves, and whether time or the embedder gave out. */
  function OneBatch(w: World, path: Path, chunks: seq<string>, offset: nat, p: Progress): (seq<nat>, Progress, bool)
    requires offset < |chunks|
  {
    if OutOfTime(w.env.clock(p.looks)) then ([], p.(looks := p.looks + 1), true)
    else
      var slice := SliceAt(chunks, offset);
      var answer := EmbedBudgeted(w, |slice|, w.env.clock(p.looks + 1), p.rate, p.looks + 2);
      if answer.0 == [] then ([], p.(rate := answer.2, looks := p.looks + 3), answer.1)
      else (answer.0,
            Progress(Inserted(p.table, path, slice, offset, answer.0), p.written + Written(|slice|, answer.0), answer.2,
                p.looks + 3), false)
  }

  /** Embeds the rest of a file batch by batch; true when time or the embedder gave out. */
  function EmbedRest(w: World, path: Path, chunks: seq<string>, offset: nat, p: Progress): (Progress, bool)
    decreases |chunks| - offset
  {
    if offset >= |chunks| then (p, false)
    else
      var batch := OneBatch(w, path, chunks, offset, p);
      if batch.0 == [] then (batch.1, batch.2) else EmbedRest(w, path, chunks, offset + |batch.0|, batch.1)
  }

  // ---------------------------------------------------------------- one file

  /** The hash a file is compared by. */
  function HashNow(w: World, path: Path): Option<Hash> {
    if path in w.pre then Some(w.pre[path]) else if w.files(path).Text? then Some(w.files(path).hash) else None
  }

  predicate Unchanged(w: World, before: Ledger, path: Path) {
    path in before && HashNow(w, path) == Some(before[path].hash)
  }

  /** What a file's embedding leaves behind, and whether the sweep stops after it. */
  function Settled(w: World, before: Ledger, ledger0: Ledger, stats0: Stats, path: Path, hash: Hash, budgeted: nat,
      cut: bool,
                   p: Progress, ranOut: bool): (Sweep, bool)
  {
    var whole := p.written > 0 && (p.written == budgeted || !ranOut);
    var table := if p.written > 0 && !whole then DeleteRows(p.table, path, p.written) else p.table;
    var stats := stats0.(
      chunks := stats0.chunks + (if whole then p.written else 0),
      indexed := stats0.indexed + (if whole then 1 else 0),
      added := stats0.added + (if whole && path !in before then 1 else 0),
      cursor := if whole then Some(path) else stats0.cursor,
      capped := stats0.capped || cut || ranOut,
      timedOut := stats0.timedOut || ranOut);
    var ledger := if whole then ledger0[path := Row(hash, p.written)] else ledger0;
    if ranOut then (Sweep(table, ledger, stats, p.rate, p.looks + 1), OutOfTime(w.env.clock(p.looks)))
    else (Sweep(table, ledger, stats, p.rate, p.looks), stats.capped)
  }

  /** A changed file: its old rows go, and as many of its chunks as the cap has left are embedded. */
  function Reembedded(w: World, before: Ledger, s: Sweep, path: Path, hash: Hash, chunks: seq<string>): (Sweep, bool) {
    var table := if path in before then DeleteRows(s.table, path, before[path].chunks) else s.table;
    var room := if w.maxChunks >= s.stats.chunks then w.maxChunks - s.stats.chunks else 0;
    var budgeted := chunks[..Min(room, |chunks|)];
    var (p, ranOut) := EmbedRest(w, path, budgeted, 0, Progress(table, 0, s.rate, s.looks));
    Settled(w, before, s.ledger, s.stats, path, hash, |budgeted|, |budgeted| < |chunks|, p, ranOut)
  }

  /** One file of the sweep. */
  function Visit(w: World, before: Ledger, s: Sweep, path: Path): (Sweep, bool) {
    if Unchanged(w, before, path) then
        (s.(stats := s.stats.(skipped := s.stats.skipped + 1, cursor := Some(path))), false)
    else match w.files(path)
      case Text(contentHash, chunks) =>
        Reembedded(w, before, s, path, if path in w.pre then w.pre[path] else contentHash, chunks)
      case _ => (s, false)
  }

  // ---------------------------------------------------------------- the sweep

  function SweepFrom(w: World, before: Ledger, paths: seq<Path>, i: nat, s: Sweep): Sweep
    requires i <= |paths|
    decreases |paths| - i
  {
    if i == |paths| then s
    else if s.stats.chunks >= w.maxChunks then s.(stats := s.stats.(capped := true))
    else if OutOfTime(w.env.clock(s.looks)) then
        s.(stats := s.stats.(capped := true, timedOut := true), looks := s.looks + 1)
    else
      var (next, stop) := Visit(w, before, s.(looks := s.looks + 1), paths[i]);
      if stop then next else SweepFrom(w, before, paths, i + 1, next)
  }

  /** Paths of the old ledger that git no longer tracks. */
  function Gone(before: Ledger, tracked: seq<Path>): set<Path> {
    set path | path in before && path !in tracked
  }

  function PurgedRows(table: Table, before: Ledger, gone: set<Path>): Table
    requires gone <= before.Keys
  {
    map key | key in table && !(key.path in gone && key.index < before[key.path].chunks) :: table[key]
  }

  function Purged(before: Ledger, gone: set<Path>, s: Sweep): Sweep
    requires gone <= before.Keys
  {
    s.(table := PurgedRows(s.table, before, gone),
       ledger := s.ledger - gone,
       stats := s.stats.(removed := s.stats.removed + |gone|))
  }

  datatype Coverage = Coverage(indexedFiles: nat, trackedFiles: nat, chunks: nat, partial: bool, cursor: Option<Path>,
      msPerChunk: Option<nat>)

  function Covered(before: Ledger, tracked: nat, stats: Stats, rate: Rate, learned: Option<nat>): Coverage {
    var n := |before| + stats.added - stats.removed;
    var indexedFiles: nat := if n < 0 then 0 else n;
    Coverage(indexedFiles, tracked, stats.chunks, stats.capped || stats.timedOut
        || indexedFiles < tracked, stats.cursor,
             if stats.chunks > 0 then Some(rate.msPerChunk) else learned)
  }

  function Start(table: Table, ledger: Ledger, learned: Option<nat>): Sweep {
    Sweep(table, ledger, NoStats, if learned.Some? then Rate(learned.value, true)
        else Rate(EMBED_MS_PER_CHUNK_GUESS, false), 0)
  }

  /** One refresh: the sweep in the given order, then the files that left the tree. */
  function Refreshed(w: World, table: Table, ledger: Ledger, tracked: seq<Path>, paths: seq<Path>,
      learned: Option<nat>): Sweep {
    var gone := Gone(ledger, tracked);
    Purged(ledger, gone, SweepFrom(w, ledger, paths, 0, Start(table, ledger, learned)))
  }
}
