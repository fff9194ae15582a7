/** The order a sweep visits files in: relevant ones first, then round-robin over directories from a cursor. */
module OrderingSpec {
  import opened Options

  type Path = string

  /**
   `score`: how many words a path shares with what is asked. `rank`: the place of a path in the collation order; `code`:
   the place of a directory's name in the plain order of its characters.
   */
  datatype Order = Order(score: Path -> nat, rank: string -> int, code: string -> int)

  /** The top-level directory, or "." for a file at the root. */
  function Top(path: Path): string {
    TopFrom(path, 0)
  }

  function TopFrom(path: Path, i: nat): string
    requires i <= |path|
    decreases |path| - i
  {
    if i == |path| then "." else if path[i] == '/' then path[..i] else TopFrom(path, i + 1)
  }

  function Filter(paths: seq<Path>, keep: Path -> bool): seq<Path>
    decreases |paths|
  {
    if paths == [] then [] else (if keep(paths[0]) then [paths[0]] else []) + Filter(paths[1..], keep)
  }

  function Insert<T>(x: T, xs: seq<T>, le: (T, T) -> bool): seq<T>
    decreases |xs|
  {
    if xs == [] || le(x, xs[0]) then [x] + xs else [xs[0]] + Insert(x, xs[1..], le)
  }

  function Sort<T>(xs: seq<T>, le: (T, T) -> bool): seq<T>
    decreases |xs|
  {
    if xs == [] then [] else Insert(xs[0], Sort(xs[1..], le), le)
  }

  function Better(o: Order): (Path, Path) -> bool {
    (a, b) => o.score(a) > o.score(b) || (o.score(a) == o.score(b) && o.rank(a) <= o.rank(b))
  }

  function ByCode(o: Order): (string, string) -> bool {
    (a, b) => o.code(a) <= o.code(b)
  }

  function IsRelevant(o: Order): Path -> bool {
    path => o.score(path) > 0
  }

  function IsRest(o: Order): Path -> bool {
    path => o.score(path) == 0
  }

  function InGroup(key: string): Path -> bool {
    path => Top(path) == key
  }

  function Relevant(o: Order, paths: seq<Path>): seq<Path> {
    Sort(Filter(paths, IsRelevant(o)), Better(o))
  }

  function Rest(o: Order, paths: seq<Path>): seq<Path> {
    Filter(paths, IsRest(o))
  }

  function Group(rest: seq<Path>, key: string): seq<Path> {
    Filter(rest, InGroup(key))
  }

  /** The directories, each at its first appearance. */
  function Keys(rest: seq<Path>): seq<string>
    decreases |rest|
  {
    if rest == [] then []
    else
      var before := Keys(rest[..|rest| - 1]);
      var key := Top(rest[|rest| - 1]);
      if key in before then before else before + [key]
  }

  /** The `i`-th file of each directory that has one. */
  function Round(rest: seq<Path>, keys: seq<string>, i: nat): (r: seq<Path>)
    ensures r != [] ==> i < |rest|
    decreases |keys|
  {
    if keys == [] then []
    else
      FilterShorter(rest, InGroup(keys[0]));
      (if i < |Group(rest, keys[0])| then [Group(rest, keys[0])[i]] else []) + Round(rest, keys[1..], i)
  }

  /** Rounds until one adds nothing. */
  function Rounds(rest: seq<Path>, keys: seq<string>, i: nat): seq<Path>
    decreases |rest| - i
  {
    var round := Round(rest, keys, i);
    if round == [] then [] else round + Rounds(rest, keys, i + 1)
  }

  function Interleaved(o: Order, rest: seq<Path>): seq<Path> {
    Rounds(rest, Sort(Keys(rest), ByCode(o)), 0)
  }

  /** The first position of the cursor, or the length. */
  function IndexOf(paths: seq<Path>, path: Path): (r: nat)
    ensures r <= |paths| && (r < |paths| ==> paths[r] == path) && path !in paths[..r]
    decreases |paths|
  {
    if paths == [] || paths[0] == path then 0
    else
      var r := 1 + IndexOf(paths[1..], path);
      assert paths[..r] == [paths[0]] + paths[1..][..r - 1];
      r
  }

  function Rotated(paths: seq<Path>, cursor: Option<Path>): seq<Path> {
    if cursor.None? then paths
    else
      var at := IndexOf(paths, cursor.value);
      if at < |paths| then paths[at + 1..] + paths[..at + 1] else paths
  }

  function Ordered(o: Order, paths: seq<Path>, cursor: Option<Path>): seq<Path> {
    Relevant(o, paths) + Rotated(Interleaved(o, Rest(o, paths)), cursor)
  }

  lemma {:induction false} FilterShorter(paths: seq<Path>, keep: Path -> bool)
    ensures |Filter(paths, keep)| <= |paths|
    decreases |paths|
  {
    if paths != [] { FilterShorter(paths[1..], keep); }
  }
}

/** Nothing lost, relevance first, directories served evenly, and the walk resumed where it stopped. */
module OrderingTheorems {
  import opened Options
  import opened OrderingSpec

  // ---------------------------------------------------------------- filtering and sorting

  lemma Halves(paths: seq<Path>, n: nat)
    requires n <= |paths|
    ensures paths == paths[..n] + paths[n..]
  {
  }

  lemma FilterPrefix(paths: seq<Path>, n: nat, keep: Path -> bool)
    requires n <= |paths|
    ensures Filter(paths[..n], keep) <= Filter(paths, keep)
  {
    Halves(paths, n);
    FilterConcat(paths[..n], paths[n..], keep);
  }

  lemma FilterFirst(path: Path, paths: seq<Path>, keep: Path -> bool)
    ensures Filter([path] + paths, keep) == (if keep(path) then [path] else []) + Filter(paths, keep)
  {
    assert ([path] + paths)[1..] == paths;
  }

  lemma {:induction false} FilterConcat(a: seq<Path>, b: seq<Path>, keep: Path -> bool)
    ensures Filter(a + b, keep) == Filter(a, keep) + Filter(b, keep)
    decreases |a|
  {
    if a == [] {
      assert a + b == b;
    } else {
      FilterConcat(a[1..], b, keep);
      FilterFirst(a[0], a[1..], keep);
      FilterFirst(a[0], a[1..] + b, keep);
      assert a == [a[0]] + a[1..] && a + b == [a[0]] + (a[1..] + b);
    }
  }

  lemma {:induction false} FilterCounts(paths: seq<Path>, keep: Path -> bool, x: Path)
    ensures multiset(Filter(paths, keep))[x] == if keep(x) then multiset(paths)[x] else 0
    decreases |paths|
  {
    if paths != [] {
      FilterCounts(paths[1..], keep, x);
      assert paths == [paths[0]] + paths[1..];
    }
  }

  lemma {:induction false} InsertCounts<T>(x: T, xs: seq<T>, le: (T, T) -> bool)
    ensures multiset(Insert(x, xs, le)) == multiset{x} + multiset(xs)
    decreases |xs|
  {
    if xs != [] && !le(x, xs[0]) {
      InsertCounts(x, xs[1..], le);
      assert xs == [xs[0]] + xs[1..];
    }
  }

  lemma {:induction false} SortCounts<T>(xs: seq<T>, le: (T, T) -> bool)
    ensures multiset(Sort(xs, le)) == multiset(xs)
    decreases |xs|
  {
    if xs != [] {
      SortCounts(xs[1..], le);
      InsertCounts(xs[0], Sort(xs[1..], le), le);
      assert xs == [xs[0]] + xs[1..];
    }
  }

  ghost predicate Total<T(!new)>(le: (T, T) -> bool) {
    (forall a, b :: le(a, b) || le(b, a)) && (forall a, b, c :: le(a, b) && le(b, c) ==> le(a, c))
  }

  predicate InOrder<T>(xs: seq<T>, le: (T, T) -> bool) {
    forall i, j :: 0 <= i < j < |xs| ==> le(xs[i], xs[j])
  }

  lemma {:induction false} InsertOrdered<T(!new)>(x: T, xs: seq<T>, le: (T, T) -> bool)
    requires Total(le) && InOrder(xs, le)
    ensures InOrder(Insert(x, xs, le), le)
    decreases |xs|
  {
    if xs != [] && !le(x, xs[0]) {
      InsertOrdered(x, xs[1..], le);
      InsertCounts(x, xs[1..], le);
      forall y | y in Insert(x, xs[1..], le) ensures le(xs[0], y) {
        assert y in multiset(Insert(x, xs[1..], le));
      }
    }
  }

  lemma {:induction false} SortOrdered<T(!new)>(xs: seq<T>, le: (T, T) -> bool)
    requires Total(le)
    ensures InOrder(Sort(xs, le), le)
    decreases |xs|
  {
    if xs != [] {
      SortOrdered(xs[1..], le);
      InsertOrdered(xs[0], Sort(xs[1..], le), le);
    }
  }

  // ---------------------------------------------------------------- rounds

  predicate Distinct<T(==)>(xs: seq<T>) {
    forall i, j :: 0 <= i < j < |xs| ==> xs[i] != xs[j]
  }

  /** The directory is what stands before the first slash, or a dot. */
  lemma TopIs(dir: string, rest: string)
    requires forall i :: 0 <= i < |dir| ==> dir[i] != '/'
    ensures Top(dir + "/" + rest) == dir && Top(dir) == "."
  {
    TopSkips(dir + "/" + rest, |dir|, 0);
    TopSkips(dir, |dir|, 0);
  }

  lemma {:induction false} TopSkips(path: Path, n: nat, i: nat)
    requires i <= n <= |path| && (forall k :: i <= k < n ==> path[k] != '/') && (n < |path| ==> path[n] == '/')
    ensures TopFrom(path, i) == if n == |path| then "." else path[..n]
    decreases n - i
  {
    if i < n { TopSkips(path, n, i + 1); }
  }

  /** In each round the directories take their turns in the plain order of their names. */
  lemma TurnsInOrder(o: Order, rest: seq<Path>, i: nat, p: nat, q: nat)
    requires p < q < |Round(rest, Sort(Keys(rest), ByCode(o)), i)|
    ensures var round := Round(rest, Sort(Keys(rest), ByCode(o)), i); o.code(Top(round[p])) <= o.code(Top(round[q]))
  {
    SortOrdered(Keys(rest), ByCode(o));
    var a, b := RoundFollows(rest, Sort(Keys(rest), ByCode(o)), i, p, q);
  }

  /** The members of a round come from its directories in their order. */
  lemma {:induction false} RoundFollows(rest: seq<Path>, keys: seq<string>, i: nat, p: nat, q: nat)
    returns (a: nat, b: nat)
    requires p < q < |Round(rest, keys, i)|
    ensures a < b < |keys| && Top(Round(rest, keys, i)[p]) == keys[a] && Top(Round(rest, keys, i)[q]) == keys[b]
    decreases |keys|
  {
    RoundOnward(rest, keys, i);
    var first := Turn(rest, keys[0], i);
    GroupMembers(rest, keys[0]);
    if first == [] {
      a, b := RoundFollows(rest, keys[1..], i, p, q);
      a, b := a + 1, b + 1;
    } else if p == 0 {
      assert first[0] in Group(rest, keys[0]);
      b := RoundFrom(rest, keys[1..], i, q - 1);
      a, b := 0, b + 1;
    } else {
      a, b := RoundFollows(rest, keys[1..], i, p - 1, q - 1);
      a, b := a + 1, b + 1;
    }
  }

  lemma {:induction false} RoundFrom(rest: seq<Path>, keys: seq<string>, i: nat, q: nat) returns (b: nat)
    requires q < |Round(rest, keys, i)|
    ensures b < |keys| && Top(Round(rest, keys, i)[q]) == keys[b]
    decreases |keys|
  {
    RoundOnward(rest, keys, i);
    var first := Turn(rest, keys[0], i);
    GroupMembers(rest, keys[0]);
    if q < |first| {
      assert first[0] in Group(rest, keys[0]);
      b := 0;
    } else {
      b := RoundFrom(rest, keys[1..], i, q - |first|);
      b := b + 1;
    }
  }

  lemma {:induction false} GroupMembers(rest: seq<Path>, key: string)
    ensures forall path <- Group(rest, key) :: Top(path) == key
    decreases |rest|
  {
    if rest != [] { GroupMembers(rest[1..], key); }
  }

  /** What directory `key` gets in round `i`. */
  function Turn(rest: seq<Path>, key: string, i: nat): seq<Path> {
    if i < |Group(rest, key)| then [Group(rest, key)[i]] else []
  }

  /** What directory `key` still gets from round `i` on. */
  function Left(rest: seq<Path>, key: string, i: nat): seq<Path> {
    if i <= |Group(rest, key)| then Group(rest, key)[i..] else []
  }

  lemma TurnThenLeft(rest: seq<Path>, key: string, i: nat)
    ensures Left(rest, key, i) == Turn(rest, key, i) + Left(rest, key, i + 1)
  {
  }

  lemma TurnServes(rest: seq<Path>, i: nat, at: string, key: string)
    ensures Filter(Turn(rest, at, i), InGroup(key)) == if at == key then Turn(rest, key, i) else []
  {
    GroupMembers(rest, at);
    if i < |Group(rest, at)| {
      assert Group(rest, at)[i] in Group(rest, at);
      FilterFirst(Group(rest, at)[i], [], InGroup(key));
      assert Turn(rest, at, i) == [Group(rest, at)[i]] + [];
    }
  }

  lemma RoundOnward(rest: seq<Path>, keys: seq<string>, i: nat)
    requires keys != []
    ensures Round(rest, keys, i) == Turn(rest, keys[0], i) + Round(rest, keys[1..], i)
  {
  }

  /** A round serves each of its directories once, if it still has a file. */
  lemma {:induction false} RoundServes(rest: seq<Path>, keys: seq<string>, i: nat, key: string)
    requires Distinct(keys)
    ensures Filter(Round(rest, keys, i), InGroup(key)) == if key in keys then Turn(rest, key, i) else []
    decreases |keys|
  {
    if keys != [] {
      RoundServes(rest, keys[1..], i, key);
      RoundOnward(rest, keys, i);
      TurnServes(rest, i, keys[0], key);
      FilterConcat(Turn(rest, keys[0], i), Round(rest, keys[1..], i), InGroup(key));
      assert keys[0] !in keys[1..];
    }
  }

  lemma RoundEmpty(rest: seq<Path>, keys: seq<string>, i: nat, key: string)
    requires Distinct(keys) && Round(rest, keys, i) == [] && key in keys
    ensures |Group(rest, key)| <= i
  {
    RoundServes(rest, keys, i, key);
  }

  lemma RoundsOnward(rest: seq<Path>, keys: seq<string>, i: nat, key: string)
    ensures var served := Filter(Rounds(rest, keys, i), InGroup(key));
            if Round(rest, keys, i) == [] then served == []
            else served == Filter(Round(rest, keys, i), InGroup(key)) + Filter(Rounds(rest, keys, i + 1), InGroup(key))
  {
    FilterConcat(Round(rest, keys, i), Rounds(rest, keys, i + 1), InGroup(key));
  }

  /** All the rounds from `i` on give each directory the rest of its files, in their order. */
  lemma {:induction false} RoundsServe(rest: seq<Path>, keys: seq<string>, i: nat, key: string)
    requires Distinct(keys)
    ensures Filter(Rounds(rest, keys, i), InGroup(key)) == if key in keys then Left(rest, key, i) else []
    decreases |rest| - i
  {
    RoundsOnward(rest, keys, i, key);
    if Round(rest, keys, i) == [] {
      if key in keys { RoundEmpty(rest, keys, i, key); }
    } else {
      RoundServes(rest, keys, i, key);
      RoundsServe(rest, keys, i + 1, key);
      TurnThenLeft(rest, key, i);
    }
  }

  lemma {:induction false} KeysCover(rest: seq<Path>)
    ensures Distinct(Keys(rest)) && forall path <- rest :: Top(path) in Keys(rest)
    decreases |rest|
  {
    if rest != [] {
      KeysCover(rest[..|rest| - 1]);
      assert rest == rest[..|rest| - 1] + [rest[|rest| - 1]];
    }
  }

  lemma {:induction false} CountedOnce<T>(xs: seq<T>)
    requires Distinct(xs)
    ensures forall x :: multiset(xs)[x] <= 1
    decreases |xs|
  {
    if xs != [] {
      CountedOnce(xs[1..]);
      assert xs == [xs[0]] + xs[1..];
      assert xs[0] !in xs[1..];
    }
  }

  lemma {:induction false} OnceIsDistinct<T>(xs: seq<T>)
    requires forall x :: multiset(xs)[x] <= 1
    ensures Distinct(xs)
    decreases |xs|
  {
    if xs != [] {
      assert xs == [xs[0]] + xs[1..];
      assert multiset(xs) == multiset{xs[0]} + multiset(xs[1..]);
      forall x ensures multiset(xs[1..])[x] <= 1 { assert multiset(xs[1..])[x] <= multiset(xs)[x]; }
      OnceIsDistinct(xs[1..]);
      assert xs[0] !in xs[1..] by { assert multiset(xs)[xs[0]] == 1 + multiset(xs[1..])[xs[0]]; }
    }
  }

  lemma SortedKeys(o: Order, rest: seq<Path>)
    ensures var keys := Sort(Keys(rest), ByCode(o)); Distinct(keys) && forall path <- rest :: Top(path) in keys
  {
    KeysCover(rest);
    var keys := Sort(Keys(rest), ByCode(o));
    SortCounts(Keys(rest), ByCode(o));
    CountedOnce(Keys(rest));
    OnceIsDistinct(keys);
    forall path | path in rest ensures Top(path) in keys {
      assert Top(path) in multiset(Keys(rest));
    }
  }

  /** The interleaving keeps each directory's own files, all of them, in their order. */
  lemma GroupsKept(o: Order, rest: seq<Path>, key: string)
    ensures Filter(Interleaved(o, rest), InGroup(key)) == Group(rest, key)
  {
    SortedKeys(o, rest);
    var keys := Sort(Keys(rest), ByCode(o));
    RoundsServe(rest, keys, 0, key);
    if key !in keys { NoMembers(rest, key); }
  }

  lemma {:induction false} NoMembers(rest: seq<Path>, key: string)
    requires forall path <- rest :: Top(path) != key
    ensures Group(rest, key) == []
    decreases |rest|
  {
    if rest != [] { NoMembers(rest[1..], key); }
  }

  lemma InterleavedIsPermutation(o: Order, rest: seq<Path>)
    ensures multiset(Interleaved(o, rest)) == multiset(rest)
  {
    forall x ensures multiset(Interleaved(o, rest))[x] == multiset(rest)[x] {
      GroupsKept(o, rest, Top(x));
      FilterCounts(Interleaved(o, rest), InGroup(Top(x)), x);
      FilterCounts(rest, InGroup(Top(x)), x);
    }
  }

  lemma RotatedIsPermutation(paths: seq<Path>, cursor: Option<Path>)
    ensures multiset(Rotated(paths, cursor)) == multiset(paths)
  {
    if cursor.Some? {
      var at := IndexOf(paths, cursor.value);
      if at < |paths| { assert paths == paths[..at + 1] + paths[at + 1..]; }
    }
  }

  // ---------------------------------------------------------------- main results

  /** The order visits every path it was given exactly as often as it was given it. */
  lemma OrderedIsPermutation(o: Order, paths: seq<Path>, cursor: Option<Path>)
    ensures multiset(Ordered(o, paths, cursor)) == multiset(paths)
  {
    forall x ensures multiset(Ordered(o, paths, cursor))[x] == multiset(paths)[x] {
      FilterCounts(paths, IsRelevant(o), x);
      FilterCounts(paths, IsRest(o), x);
      SortCounts(Filter(paths, IsRelevant(o)), Better(o));
      InterleavedIsPermutation(o, Rest(o, paths));
      RotatedIsPermutation(Interleaved(o, Rest(o, paths)), cursor);
    }
  }

  /** So a listing without repeats is visited without repeats. */
  lemma OrderedIsDistinct(o: Order, paths: seq<Path>, cursor: Option<Path>)
    requires Distinct(paths)
    ensures Distinct(Ordered(o, paths, cursor)) && forall path :: path in Ordered(o, paths, cursor) <==> path in paths
  {
    OrderedIsPermutation(o, paths, cursor);
    CountedOnce(paths);
    OnceIsDistinct(Ordered(o, paths, cursor));
    forall path ensures path in Ordered(o, paths, cursor) <==> path in paths {
      assert path in multiset(Ordered(o, paths, cursor)) <==> path in multiset(paths);
    }
  }

  /** Every task-relevant path comes before every other; higher scores first, equal scores by name. */
  lemma RelevantFirst(o: Order, paths: seq<Path>, cursor: Option<Path>, i: nat, j: nat)
    requires i < j < |Ordered(o, paths, cursor)|
    ensures var r := Ordered(o, paths, cursor);
            && o.score(r[i]) >= o.score(r[j])
            && (o.score(r[i]) == o.score(r[j]) > 0 ==> o.rank(r[i]) <= o.rank(r[j]))
  {
    var r := Ordered(o, paths, cursor);
    var relevant := Relevant(o, paths);
    var rest := Rotated(Interleaved(o, Rest(o, paths)), cursor);
    SortOrdered(Filter(paths, IsRelevant(o)), Better(o));
    forall x | x in relevant ensures o.score(x) > 0 {
      SortCounts(Filter(paths, IsRelevant(o)), Better(o));
      FilterCounts(paths, IsRelevant(o), x);
      assert x in multiset(relevant);
    }
    forall x | x in rest ensures o.score(x) == 0 {
      RotatedIsPermutation(Interleaved(o, Rest(o, paths)), cursor);
      InterleavedIsPermutation(o, Rest(o, paths));
      FilterCounts(paths, IsRest(o), x);
      assert x in multiset(rest);
    }
    assert r[j] in (if j < |relevant| then relevant else rest) && r[i] in (if i < |relevant| then relevant else rest);
  }

  function Served(paths: seq<Path>, key: string): nat {
    |Group(paths, key)|
  }

  /** Inside one round a directory has been served or not. */
  lemma {:induction false} PartOfRound(rest: seq<Path>, keys: seq<string>, i: nat, n: nat, key: string)
    requires Distinct(keys) && n <= |Round(rest, keys, i)|
    ensures Served(Round(rest, keys, i)[..n], key) <= 1
    ensures Served(Round(rest, keys, i)[..n], key) == 1 ==> key in keys && i < |Group(rest, key)|
  {
    RoundServes(rest, keys, i, key);
    FilterPrefix(Round(rest, keys, i), n, InGroup(key));
  }

  /** A directory with `left` files, asked in `rounds` rounds and perhaps once more, was served `n` times. */
  predicate Even(n: nat, left: nat, rounds: nat) {
    rounds <= n <= rounds + 1 || n == left <= rounds
  }

  /** A directory that has been served all its files gets nothing more. */
  lemma NothingMore(rest: seq<Path>, keys: seq<string>, i: nat, more: nat, key: string)
    requires Distinct(keys) && i == |Group(rest, key)| && more <= |Rounds(rest, keys, i + 1)|
    ensures Served(Rounds(rest, keys, i + 1)[..more], key) == 0
  {
    RoundsServe(rest, keys, i + 1, key);
    FilterPrefix(Rounds(rest, keys, i + 1), more, InGroup(key));
  }

  lemma RoundThenMore(rest: seq<Path>, keys: seq<string>, i: nat, more: nat, key: string)
    requires Distinct(keys) && key in keys && i <= |Group(rest, key)| && more <= |Rounds(rest, keys, i + 1)|
    ensures var served := Served(Rounds(rest, keys, i + 1)[..more], key);
            Served(Round(rest, keys, i) + Rounds(rest, keys, i + 1)[..more], key)
            == (if i < |Group(rest, key)| then 1 + served else 0)
  {
    var later := Rounds(rest, keys, i + 1);
    RoundServes(rest, keys, i, key);
    FilterConcat(Round(rest, keys, i), later[..more], InGroup(key));
    if i == |Group(rest, key)| { NothingMore(rest, keys, i, more, key); }
  }

  /** After any prefix, some number of rounds tells how often each directory has been served. */
  lemma {:induction false} PrefixServes(rest: seq<Path>, keys: seq<string>, i: nat, n: nat) returns (rounds: nat)
    requires Distinct(keys) && n <= |Rounds(rest, keys, i)|
    ensures forall key <- keys :: i <= |Group(rest, key)| ==>
              Even(Served(Rounds(rest, keys, i)[..n], key), |Group(rest, key)| - i, rounds)
    decreases |rest| - i
  {
    var round := Round(rest, keys, i);
    var all := Rounds(rest, keys, i);
    rounds := 0;
    if round != [] && n <= |round| {
      assert all[..n] == round[..n];
      forall key | key in keys ensures Served(all[..n], key) <= 1 { PartOfRound(rest, keys, i, n, key); }
    } else if round != [] {
      var more := n - |round|;
      var later := PrefixServes(rest, keys, i + 1, more);
      rounds := later + 1;
      assert all[..n] == round + Rounds(rest, keys, i + 1)[..more];
      forall key | key in keys && i <= |Group(rest, key)|
        ensures Even(Served(all[..n], key), |Group(rest, key)| - i, rounds) {
        RoundThenMore(rest, keys, i, more, key);
      }
    }
  }

  /** In every prefix of the interleaving a directory is at most one file ahead of any other that still has files. */
  lemma FairPrefix(o: Order, rest: seq<Path>, n: nat, a: string, b: string)
    requires n <= |Interleaved(o, rest)|
    ensures var prefix := Interleaved(o, rest)[..n];
            Served(prefix, a) <= Served(prefix, b) + 1 || Served(prefix, b) == |Group(rest, b)|
  {
    SortedKeys(o, rest);
    var keys := Sort(Keys(rest), ByCode(o));
    var rounds := PrefixServes(rest, keys, 0, n);
    var all := Interleaved(o, rest);
    assert all == all[..n] + all[n..];
    if a !in keys { GroupsKept(o, rest, a); NoMembers(rest, a); FilterConcat(all[..n], all[n..], InGroup(a)); }
    if b !in keys { GroupsKept(o, rest, b); NoMembers(rest, b); FilterConcat(all[..n], all[n..], InGroup(b)); }
  }

  /** `shifted` is `walk` started `shift` places later, wrapping round at the end. */
  predicate CyclicShift(shifted: seq<Path>, walk: seq<Path>, shift: nat) {
    |shifted| == |walk| && forall k: nat :: k < |walk| ==> ShiftedAt(shifted, walk, shift, k)
  }

  predicate ShiftedAt(shifted: seq<Path>, walk: seq<Path>, shift: nat, k: nat)
    requires k < |shifted| == |walk|
  {
    shifted[k] == walk[(shift + k) % |walk|]
  }

  lemma Wrapped(k: nat, n: nat)
    requires 0 < n && k < 2 * n
    ensures k % n == if k < n then k else k - n
  {
  }

  lemma CutIsShift(walk: seq<Path>, shift: nat)
    requires shift <= |walk|
    ensures CyclicShift(walk[shift..] + walk[..shift], walk, shift)
  {
    forall k: nat | k < |walk| ensures ShiftedAt(walk[shift..] + walk[..shift], walk, shift, k) {
      Wrapped(shift + k, |walk|);
    }
  }

  lemma RotatedResumes(walk: seq<Path>, cursor: Path) returns (at: nat)
    requires cursor in walk
    ensures at < |walk| && walk[at] == cursor && CyclicShift(Rotated(walk, Some(cursor)), walk, at + 1)
    ensures var r := Rotated(walk, Some(cursor)); r[|r| - 1] == cursor
  {
    at := IndexOf(walk, cursor);
    assert walk[..|walk|] == walk;
    CutIsShift(walk, at + 1);
  }

  /** A cursor in the round-robin part makes it start right after the cursor, go round once, and end with the cursor. */
  lemma ResumesAfterCursor(o: Order, paths: seq<Path>, cursor: Path) returns (at: nat)
    requires cursor in Interleaved(o, Rest(o, paths))
    ensures var walk := Interleaved(o, Rest(o, paths)); var relevant := Relevant(o, paths);
            var r := Ordered(o, paths, Some(cursor));
            && at < |walk| && walk[at] == cursor
            && relevant <= r && CyclicShift(r[|relevant|..], walk, at + 1)
            && r[|r| - 1] == cursor
  {
    var walk := Interleaved(o, Rest(o, paths));
    at := RotatedResumes(walk, cursor);
    assert Ordered(o, paths, Some(cursor))[|Relevant(o, paths)|..] == Rotated(walk, Some(cursor));
  }
}
