/** The two admission classes as one process uses them, and the proof that they answer alike. */
module AdmissionSequential {
  import opened Sets

  type Run = string

  datatype Key = Slot(i: nat) | RepoLock(name: string) | Marker(day: string, source: string, n: nat)

  datatype Op =
    | AcquireSlot(run: Run, limit: int)
    | ReleaseSlot(run: Run)
    | TakeDailyLaunch(source: string, day: string, limit: int)
    | AcquireRepo(run: Run, repo: string)
    | ReleaseRepo(run: Run)

  /** The store's keys and the process's own memory. */
  datatype Nucleus = Nucleus(kv: map<Key, Run>, held: map<Run, nat>, repo: map<Run, string>,
      cursor: map<(string, string), nat>)
  datatype Local = Local(slots: set<Run>, launches: map<(string, string), nat>, repos: map<Run, string>)

  const NoNucleus := Nucleus(map[], map[], map[], map[])
  const NoLocal := Local({}, map[], map[])

  /** The first slot from `i` on that nobody holds, or `limit`. */
  function FreeSlot(kv: map<Key, Run>, i: nat, limit: nat): (r: nat)
    requires i <= limit
    ensures i <= r <= limit && (forall j: nat :: i <= j < r ==> Slot(j) in kv) && (r < limit ==> Slot(r) !in kv)
    decreases limit - i
  {
    if i == limit || Slot(i) !in kv then i else FreeSlot(kv, i + 1, limit)
  }

  function FreeMarker(kv: map<Key, Run>, day: string, source: string, i: nat, limit: nat): (r: nat)
    requires i <= limit
    ensures i <= r <= limit && (forall j: nat :: i <= j < r ==> Marker(day, source, j) in kv)
    ensures r < limit ==> Marker(day, source, r) !in kv
    decreases limit - i
  {
    if i == limit || Marker(day, source, i) !in kv then i else FreeMarker(kv, day, source, i + 1, limit)
  }

  function Used(m: map<(string, string), nat>, day: string, source: string): nat {
    if (day, source) in m then m[(day, source)] else 0
  }

  function NucleusLaunch(n: Nucleus, day: string, source: string, limit: nat): (Nucleus, bool) {
    var start := Used(n.cursor, day, source);
    var i := if start <= limit then FreeMarker(n.kv, day, source, start, limit) else limit;
    if i < limit then (n.(kv := n.kv[Marker(day, source, i) := "1"], cursor := n.cursor[(day, source) := i + 1]), true)
    else
      var j := FreeMarker(n.kv, day, source, 0, start);
      if j < start then (n.(kv := n.kv[Marker(day, source, j) := "1"]), true)
      else (n.(cursor := n.cursor[(day, source) := limit]), false)
  }

  /** The value-conditional delete. */
  function Freed(kv: map<Key, Run>, key: Key, run: Run): map<Key, Run> {
    if key in kv && kv[key] == run then kv - {key} else kv
  }

  function NucleusDo(n: Nucleus, op: Op): (Nucleus, bool) {
    match op
    case AcquireSlot(run, limit) =>
      if limit <= 0 || run in n.held then (n, true)
      else
        var i := FreeSlot(n.kv, 0, limit);
        if i < limit then (n.(kv := n.kv[Slot(i) := run], held := n.held[run := i]), true) else (n, false)
    case ReleaseSlot(run) =>
      if run !in n.held then (n, true)
          else (n.(held := n.held - {run}, kv := Freed(n.kv, Slot(n.held[run]), run)), true)
    case TakeDailyLaunch(source, day, limit) => if limit <= 0 then (n, true) else NucleusLaunch(n, day, source, limit)
    case AcquireRepo(run, repo) =>
      if run in n.repo then (n, true)
      else if RepoLock(repo) in n.kv then (n, false)
      else (n.(kv := n.kv[RepoLock(repo) := run], repo := n.repo[run := repo]), true)
    case ReleaseRepo(run) =>
      if run !in n.repo then (n, true)
          else (n.(repo := n.repo - {run}, kv := Freed(n.kv, RepoLock(n.repo[run]), run)), true)
  }

  function LocalDo(l: Local, op: Op): (Local, bool) {
    match op
    case AcquireSlot(run, limit) =>
      if limit <= 0 || run in l.slots then (l, true)
      else if |l.slots| >= limit then (l, false)
      else (l.(slots := l.slots + {run}), true)
    case ReleaseSlot(run) => (l.(slots := l.slots - {run}), true)
    case TakeDailyLaunch(source, day, limit) =>
      var used := Used(l.launches, day, source);
      if limit <= 0 then (l, true)
      else if used >= limit then (l, false)
      else (l.(launches := l.launches[(day, source) := used + 1]), true)
    case AcquireRepo(run, repo) =>
      if run in l.repos then (l, true)
      else if repo in l.repos.Values then (l, false)
      else (l.(repos := l.repos[run := repo]), true)
    case ReleaseRepo(run) => (l.(repos := l.repos - {run}), true)
  }

  function NucleusAnswers(n: Nucleus, ops: seq<Op>): seq<bool>
    decreases |ops|
  {
    if ops == [] then [] else [NucleusDo(n, ops[0]).1] + NucleusAnswers(NucleusDo(n, ops[0]).0, ops[1..])
  }

  function LocalAnswers(l: Local, ops: seq<Op>): seq<bool>
    decreases |ops|
  {
    if ops == [] then [] else [LocalDo(l, ops[0]).1] + LocalAnswers(LocalDo(l, ops[0]).0, ops[1..])
  }

  // ---------------------------------------------------------------- the relation

  /** Slots in the store are exactly the remembered ones, each below `top`. */
  ghost predicate SameSlots(kv: map<Key, Run>, held: map<Run, nat>, top: nat) {
    && (forall run <- held :: held[run] < top && Slot(held[run]) in kv && kv[Slot(held[run])] == run)
    && (forall i: nat :: Slot(i) in kv ==> kv[Slot(i)] in held && held[kv[Slot(i)]] == i)
  }

  ghost predicate SameRepos(kv: map<Key, Run>, repos: map<Run, string>) {
    && (forall run <- repos :: RepoLock(repos[run]) in kv && kv[RepoLock(repos[run])] == run)
    && (forall name: string :: RepoLock(name) in kv ==>
       kv[RepoLock(name)] in repos && repos[kv[RepoLock(name)]] == name)
  }

  /** The markers of a source and day are the ones below the count, and the cursor has not passed it. */
  ghost predicate SameLaunches(n: Nucleus, launches: map<(string, string), nat>) {
    forall day: string, source: string {:trigger Used(launches, day, source)} ::
      && Used(n.cursor, day, source) <= Used(launches, day, source)
      && forall i: nat :: Marker(day, source, i) in n.kv <==> i < Used(launches, day, source)
  }

  ghost predicate Same(n: Nucleus, l: Local, top: nat) {
    && n.held.Keys == l.slots && n.repo == l.repos
    && SameSlots(n.kv, n.held, top) && SameRepos(n.kv, n.repo) && SameLaunches(n, l.launches)
  }

  predicate OneEach(held: map<Run, nat>) {
    forall a <- held, b <- held :: held[a] == held[b] ==> a == b
  }

  function Image(runs: set<Run>, held: map<Run, nat>): set<nat>
    requires runs <= held.Keys
  {
    set run | run in runs :: held[run]
  }

  lemma {:induction false} ImageSize(runs: set<Run>, held: map<Run, nat>)
    requires runs <= held.Keys && OneEach(held)
    ensures |Image(runs, held)| == |runs|
    decreases |runs|
  {
    if runs != {} {
      var run :| run in runs;
      ImageSize(runs - {run}, held);
      assert Image(runs, held) == Image(runs - {run}, held) + {held[run]};
      assert held[run] !in Image(runs - {run}, held);
    }
  }

  lemma AsManyValues(held: map<Run, nat>)
    requires OneEach(held)
    ensures |held.Values| == |held.Keys|
  {
    ImageSize(held.Keys, held);
    assert held.Values == Image(held.Keys, held);
  }

  lemma {:induction false} NumbersBelow(numbers: set<nat>, n: nat)
    requires forall i <- numbers :: i < n
    ensures |numbers| <= n
    ensures |numbers| == n <==> forall i: nat :: i < n ==> i in numbers
    decreases n
  {
    if n == 0 {
      assert numbers == {};
    } else if n - 1 in numbers {
      NumbersBelow(numbers - {n - 1}, n - 1);
      assert forall i: nat :: i < n - 1 ==> (i in numbers - {n - 1} <==> i in numbers);
    } else {
      NumbersBelow(numbers, n - 1);
    }
  }

  /** Some slot is free below a limit no holder has passed exactly when fewer runs than the limit hold one. */
  lemma SlotAnswer(n: Nucleus, l: Local, top: nat, limit: nat)
    requires Same(n, l, top) && limit >= top
    ensures FreeSlot(n.kv, 0, limit) < limit <==> |l.slots| < limit
  {
    AsManyValues(n.held);
    NumbersBelow(n.held.Values, limit);
    assert forall i: nat :: Slot(i) in n.kv <==> i in n.held.Values;
  }

  lemma SlotTaken(n: Nucleus, l: Local, top: nat, run: Run, i: nat, limit: nat)
    requires Same(n, l, top) && run !in n.held && Slot(i) !in n.kv && i < limit && top <= limit
    ensures Same(n.(kv := n.kv[Slot(i) := run], held := n.held[run := i]), l.(slots := l.slots + {run}), limit)
  {
  }

  lemma TopRises(n: Nucleus, l: Local, top: nat, limit: nat)
    requires Same(n, l, top) && top <= limit
    ensures Same(n, l, limit)
  {
  }

  lemma AcquireSame(n: Nucleus, l: Local, top: nat, run: Run, limit: int)
    requires Same(n, l, top) && (limit > 0 ==> limit >= top)
    ensures var a := NucleusDo(n, AcquireSlot(run, limit)); var b := LocalDo(l, AcquireSlot(run, limit));
            a.1 == b.1 && Same(a.0, b.0, if limit > top then limit else top)
  {
    if limit > 0 {
      TopRises(n, l, top, limit);
      if run !in n.held {
        SlotAnswer(n, l, top, limit);
        var i := FreeSlot(n.kv, 0, limit);
        if i < limit { SlotTaken(n, l, top, run, i, limit); }
      }
    }
  }

  lemma ReleaseSame(n: Nucleus, l: Local, top: nat, run: Run)
    requires Same(n, l, top)
    ensures var a := NucleusDo(n, ReleaseSlot(run)); var b := LocalDo(l, ReleaseSlot(run));
            a.1 == b.1 && Same(a.0, b.0, top)
  {
  }

  lemma ReposSame(n: Nucleus, l: Local, top: nat, op: Op)
    requires Same(n, l, top) && (op.AcquireRepo? || op.ReleaseRepo?)
    ensures NucleusDo(n, op).1 == LocalDo(l, op).1 && Same(NucleusDo(n, op).0, LocalDo(l, op).0, top)
  {
  }

  /** The cursor's scan finds the marker a full scan from zero finds. */
  lemma CursorScan(n: Nucleus, l: Local, day: string, source: string, limit: nat)
    requires SameLaunches(n, l.launches)
    ensures var start := Used(n.cursor, day, source); var used := Used(l.launches, day, source);
            && FreeMarker(n.kv, day, source, 0, start) == start
            && FreeMarker(n.kv, day, source, 0, limit) == (if used < limit then used else limit)
            && (start <= limit ==>
               FreeMarker(n.kv, day, source, start, limit) == FreeMarker(n.kv, day, source, 0, limit))
  {
    var used := Used(l.launches, day, source);
    var all := FreeMarker(n.kv, day, source, 0, limit);
    assert all < used ==> Marker(day, source, all) in n.kv;
    assert Marker(day, source, used) !in n.kv;
    var start := Used(n.cursor, day, source);
    if start <= limit {
      var later := FreeMarker(n.kv, day, source, start, limit);
      assert later < used ==> Marker(day, source, later) in n.kv;
    }
  }

  lemma LaunchGranted(n: Nucleus, l: Local, top: nat, day: string, source: string, used: nat)
    requires Same(n, l, top) && used == Used(l.launches, day, source)
    ensures Same(n.(kv := n.kv[Marker(day, source, used) := "1"], cursor := n.cursor[(day, source) := used + 1]),
                 l.(launches := l.launches[(day, source) := used + 1]), top)
  {
    var launches := l.launches[(day, source) := used + 1];
    var cursor := n.cursor[(day, source) := used + 1];
    forall d: string, s: string
      ensures Used(launches, d, s) == (if d == day && s == source then used + 1 else Used(l.launches, d, s))
      ensures Used(cursor, d, s) == (if d == day && s == source then used + 1 else Used(n.cursor, d, s))
    {
    }
    assert SameLaunches(n.(kv := n.kv[Marker(day, source, used) := "1"], cursor := cursor), launches);
  }

  lemma LaunchRefused(n: Nucleus, l: Local, top: nat, day: string, source: string, limit: nat)
    requires Same(n, l, top) && limit <= Used(l.launches, day, source)
    ensures Same(n.(cursor := n.cursor[(day, source) := limit]), l, top)
  {
    var cursor := n.cursor[(day, source) := limit];
    forall d: string, s: string ensures Used(cursor, d, s) <= Used(l.launches, d, s) {
      assert Used(n.cursor, d, s) <= Used(l.launches, d, s);
    }
  }

  lemma LaunchSame(n: Nucleus, l: Local, top: nat, day: string, source: string, limit: int)
    requires Same(n, l, top)
    ensures var op := TakeDailyLaunch(source, day, limit);
            NucleusDo(n, op).1 == LocalDo(l, op).1 && Same(NucleusDo(n, op).0, LocalDo(l, op).0, top)
  {
    if limit > 0 {
      CursorScan(n, l, day, source, limit);
      var used := Used(l.launches, day, source);
      if used < limit {
        LaunchGranted(n, l, top, day, source, used);
      } else {
        LaunchRefused(n, l, top, day, source, limit);
      }
    }
  }

  /** Positive ceilings never fall from one acquisition to the next. */
  predicate NeverLowered(ops: seq<Op>, top: nat)
    decreases |ops|
  {
    ops == []
    || (if ops[0].AcquireSlot? && ops[0].limit > 0 then ops[0].limit >= top && NeverLowered(ops[1..], ops[0].limit)
        else NeverLowered(ops[1..], top))
  }

  lemma StepSame(n: Nucleus, l: Local, top: nat, op: Op)
    requires Same(n, l, top) && (op.AcquireSlot? && op.limit > 0 ==> op.limit >= top)
    ensures NucleusDo(n, op).1 == LocalDo(l, op).1
    ensures Same(NucleusDo(n, op).0, LocalDo(l, op).0, if op.AcquireSlot? && op.limit > top then op.limit else top)
  {
    match op
    case AcquireSlot(run, limit) => AcquireSame(n, l, top, run, limit);
    case ReleaseSlot(run) => ReleaseSame(n, l, top, run);
    case TakeDailyLaunch(source, day, limit) => LaunchSame(n, l, top, day, source, limit);
    case _ => ReposSame(n, l, top, op);
  }

  lemma {:induction false} AnswersFrom(n: Nucleus, l: Local, top: nat, ops: seq<Op>)
    requires Same(n, l, top) && NeverLowered(ops, top)
    ensures NucleusAnswers(n, ops) == LocalAnswers(l, ops)
    decreases |ops|
  {
    if ops != [] {
      var op := ops[0];
      StepSame(n, l, top, op);
      AnswersFrom(NucleusDo(n, op).0, LocalDo(l, op).0, if op.AcquireSlot? && op.limit > top then op.limit
          else top, ops[1..]);
    }
  }

  /** One process over the store answers every sequence of calls as the in-memory admission does. */
  lemma SameAnswers(ops: seq<Op>)
    requires NeverLowered(ops, 0)
    ensures NucleusAnswers(NoNucleus, ops) == LocalAnswers(NoLocal, ops)
  {
    AnswersFrom(NoNucleus, NoLocal, 0, ops);
  }

  /**
   From the same state the two answer a slot request differently exactly when at least `limit` runs hold a slot
   and yet some slot below the limit is free, because a holder sits at or above a limit that was lowered.
   */
  lemma DisagreeIff(n: Nucleus, l: Local, top: nat, run: Run, limit: int)
    requires Same(n, l, top)
    ensures NucleusDo(n, AcquireSlot(run, limit)).1 != LocalDo(l, AcquireSlot(run, limit)).1
            <==> limit > 0 && run !in l.slots && |l.slots| >= limit
                 && (exists i: nat :: i < limit && i !in n.held.Values)
  {
    if limit > 0 && run !in n.held {
      assert forall i: nat :: Slot(i) in n.kv <==> i in n.held.Values;
      if FreeSlot(n.kv, 0, limit) == limit { AllTaken(n.held, limit); }
    }
  }

  lemma AllTaken(held: map<Run, nat>, limit: nat)
    requires OneEach(held) && forall i: nat :: i < limit ==> i in held.Values
    ensures |held.Keys| >= limit
  {
    AsManyValues(held);
    var below := set i | i in held.Values && i < limit;
    NumbersBelow(below, limit);
    SubsetSize(below, held.Values);
  }

  lemma TwoInOneOut(n: Nucleus, l: Local)
    requires n == NucleusDo(NucleusDo(NucleusDo(NoNucleus, AcquireSlot("a", 2)).0, AcquireSlot("b", 2)).0,
             ReleaseSlot("a")).0
    requires l == LocalDo(LocalDo(LocalDo(NoLocal, AcquireSlot("a", 2)).0, AcquireSlot("b", 2)).0, ReleaseSlot("a")).0
    ensures n == NoNucleus.(kv := map[Slot(1) := "b"], held := map["b" := 1]) && l == NoLocal.(slots := {"b"})
  {
    var n1 := NucleusDo(NoNucleus, AcquireSlot("a", 2)).0;
    assert n1 == NoNucleus.(kv := map[Slot(0) := "a"], held := map["a" := 0]);
    var n2 := NucleusDo(n1, AcquireSlot("b", 2)).0;
    assert n2 == NoNucleus.(kv := map[Slot(0) := "a", Slot(1) := "b"], held := map["a" := 0, "b" := 1]);
    assert n2.kv - {Slot(0)} == map[Slot(1) := "b"] && n2.held - {"a"} == map["b" := 1];
    assert {} + {"a"} + {"b"} - {"a"} == {"b"};
  }

  /**
   Two runs in, the first out, the ceiling lowered to one: the store admits a second run, the local count does not.
   */
  lemma LoweredCeilingDiffers(n: Nucleus, l: Local)
    requires n == NucleusDo(NucleusDo(NucleusDo(NoNucleus, AcquireSlot("a", 2)).0, AcquireSlot("b", 2)).0,
             ReleaseSlot("a")).0
    requires l == LocalDo(LocalDo(LocalDo(NoLocal, AcquireSlot("a", 2)).0, AcquireSlot("b", 2)).0, ReleaseSlot("a")).0
    ensures NucleusDo(n, AcquireSlot("c", 1)).1 && !LocalDo(l, AcquireSlot("c", 1)).1
  {
    TwoInOneOut(n, l);
    assert Slot(0) !in n.kv && |{"b"}| == 1;
  }
}

/** The two classes, each proved against its step function. */
module AdmissionObjects {
  import opened AdmissionSequential

  class NucleusAdmission {
    var kv: map<Key, Run>
    var held: map<Run, nat>
    var repo: map<Run, string>
    var cursor: map<(string, string), nat>

    function State(): Nucleus
      reads this
    {
      Nucleus(kv, held, repo, cursor)
    }

    constructor ()
      ensures State() == NoNucleus
    {
      kv, held, repo, cursor := map[], map[], map[], map[];
    }

    method SetIfAbsent(key: Key, value: Run) returns (won: bool)
      modifies this`kv
      ensures won == (key !in old(kv)) && kv == if won then old(kv)[key := value] else old(kv)
    {
      won := key !in kv;
      if won { kv := kv[key := value]; }
    }

    method DeleteIf(key: Key, value: Run)
      modifies this`kv
      ensures kv == Freed(old(kv), key, value)
    {
      if key in kv && kv[key] == value { kv := kv - {key}; }
    }

    method AcquireSlot(run: Run, limit: int) returns (ok: bool)
      modifies this
      ensures (State(), ok) == NucleusDo(old(State()), Op.AcquireSlot(run, limit))
    {
      if limit <= 0 { return true; }
      if run in held { return true; }
      for i := 0 to limit
        invariant State() == old(State())
        invariant FreeSlot(kv, 0, limit) == FreeSlot(kv, i, limit)
      {
        var won := SetIfAbsent(Slot(i), run);
        if won {
          held := held[run := i];
          return true;
        }
      }
      return false;
    }

    method ReleaseSlot(run: Run)
      modifies this
      ensures State() == NucleusDo(old(State()), Op.ReleaseSlot(run)).0
    {
      if run in held {
        var index := held[run];
        held := held - {run};
        DeleteIf(Slot(index), run);
      }
    }

    method TakeDailyLaunch(source: string, day: string, limit: int) returns (ok: bool)
      modifies this
      ensures (State(), ok) == NucleusDo(old(State()), Op.TakeDailyLaunch(source, day, limit))
    {
      if limit <= 0 { return true; }
      var start := Used(cursor, day, source);
      var n := start;
      while n < limit
        invariant State() == old(State()) && n >= start
        invariant start <= limit ==>
                  n <= limit && FreeMarker(kv, day, source, start, limit) == FreeMarker(kv, day, source, n, limit)
      {
        var won := SetIfAbsent(Marker(day, source, n), "1");
        if won {
          cursor := cursor[(day, source) := n + 1];
          return true;
        }
        n := n + 1;
      }
      for m := 0 to start
        invariant State() == old(State())
        invariant FreeMarker(kv, day, source, 0, start) == FreeMarker(kv, day, source, m, start)
      {
        var won := SetIfAbsent(Marker(day, source, m), "1");
        if won { return true; }
      }
      cursor := cursor[(day, source) := limit];
      return false;
    }

    method AcquireRepo(run: Run, name: string) returns (ok: bool)
      modifies this
      ensures (State(), ok) == NucleusDo(old(State()), Op.AcquireRepo(run, name))
    {
      if run in repo { return true; }
      ok := SetIfAbsent(RepoLock(name), run);
      if ok { repo := repo[run := name]; }
    }

    method ReleaseRepo(run: Run)
      modifies this
      ensures State() == NucleusDo(old(State()), Op.ReleaseRepo(run)).0
    {
      if run in repo {
        var name := repo[run];
        repo := repo - {run};
        DeleteIf(RepoLock(name), run);
      }
    }
  }

  class LocalAdmission {
    var slots: set<Run>
    var launches: map<(string, string), nat>
    var repos: map<Run, string>

    function State(): Local
      reads this
    {
      Local(slots, launches, repos)
    }

    constructor ()
      ensures State() == NoLocal
    {
      slots, launches, repos := {}, map[], map[];
    }

    method AcquireSlot(run: Run, limit: int) returns (ok: bool)
      modifies this
      ensures (State(), ok) == LocalDo(old(State()), Op.AcquireSlot(run, limit))
    {
      if limit <= 0 || run in slots { return true; }
      if |slots| >= limit { return false; }
      slots := slots + {run};
      return true;
    }

    method ReleaseSlot(run: Run)
      modifies this
      ensures State() == LocalDo(old(State()), Op.ReleaseSlot(run)).0
    {
      slots := slots - {run};
    }

    method TakeDailyLaunch(source: string, day: string, limit: int) returns (ok: bool)
      modifies this
      ensures (State(), ok) == LocalDo(old(State()), Op.TakeDailyLaunch(source, day, limit))
    {
      if limit <= 0 { return true; }
      var used := Used(launches, day, source);
      if used >= limit { return false; }
      launches := launches[(day, source) := used + 1];
      return true;
    }

    /** Looks through every holder for the repository. */
    method AcquireRepo(run: Run, name: string) returns (ok: bool)
      modifies this
      ensures (State(), ok) == LocalDo(old(State()), Op.AcquireRepo(run, name))
    {
      if run in repos { return true; }
      var rest := repos.Keys;
      while rest != {}
        invariant State() == old(State()) && rest <= repos.Keys
        invariant forall r <- repos.Keys - rest :: repos[r] != name
        decreases |rest|
      {
        var holder :| holder in rest;
        if repos[holder] == name {
          assert name in repos.Values;
          return false;
        }
        rest := rest - {holder};
      }
      assert name !in repos.Values;
      repos := repos[run := name];
      return true;
    }

    method ReleaseRepo(run: Run)
      modifies this
      ensures State() == LocalDo(old(State()), Op.ReleaseRepo(run)).0
    {
      repos := repos - {run};
    }
  }
}
